/** The manual panel: the motor dropdown's options and what the Start button
    does with the selected option and the volume text. */
module Selector {
  import opened Outcomes
  import opened Text
  import opened Relays

  const AllMotorsLabel: string := "All Motors"

  /** What the Start button asks for once both fields have been read. */
  datatype Request =
    | AllMotors(volume: int)
    | OneMotor(pin: Pin, volume: int)

  /** The dropdown label of motor `k`, `f"Motor {k}"`. */
  function MotorLabel(k: nat): string {
    "Motor " + NatToString(k)
  }

  /** `motor_options`: one label per relay, numbered from one, then
      "All Motors". The last word of option `i` is the numeral of `i + 1`. */
  function MotorOptions(n: nat): (options: seq<string>)
    ensures |options| == n + 1 && options[n] == AllMotorsLabel
    ensures forall i :: 0 <= i < n ==> options[i] == MotorLabel(i + 1)
    ensures forall i :: 0 <= i < n ==> LastWord(options[i]) == Some(NatToString(i + 1))
  {
    LabelsEndInNumerals(n);
    seq(n, i requires 0 <= i < n => MotorLabel(i + 1)) + [AllMotorsLabel]
  }

  lemma LabelsEndInNumerals(n: nat)
    ensures forall k :: 1 <= k <= n ==> LastWord(MotorLabel(k)) == Some(NatToString(k))
  {
    forall k | 1 <= k <= n
      ensures LastWord(MotorLabel(k)) == Some(NatToString(k))
    {
      LastWordOfMotorLabel(k);
    }
  }

  /** The Start button: exactly "All Motors" asks for every pump; anything
      else is looked up by the integer value of its last word. Python
      evaluates the pin lookup before the volume, so a bad selection is
      reported ahead of a bad volume. */
  function Dispatch(v: Variant, selection: string, volumeText: string): (r: Result<Request>)
    ensures r.Ok? ==> ParseInt(volumeText) == Some(r.value.volume)
    ensures (r.Ok? && r.value.AllMotors?) <==>
              (selection == AllMotorsLabel && ParseInt(volumeText).Some?)
    ensures r.Ok? && r.value.OneMotor? ==> r.value.pin in RelayPins(v)
    ensures selection != AllMotorsLabel && AllSpace(selection) ==> r == Err(NoWord)
  {
    if selection == AllMotorsLabel then
      match ParseInt(volumeText)
      case None => Err(NotAnInteger(volumeText))
      case Some(volume) => Ok(AllMotors(volume))
    else
      match LastWord(selection)
      case None => Err(NoWord)
      case Some(word) =>
        match ParseInt(word)
        case None => Err(NotAnInteger(word))
        case Some(k) =>
          match MotorLookup(MotorMapping(RelayPins(v)), k)
          case Err(f) => Err(f)
          case Ok(pin) =>
            match ParseInt(volumeText)
            case None => Err(NotAnInteger(volumeText))
            case Some(volume) => Ok(OneMotor(pin, volume))
  }

  /** The last word of "Motor k" is the decimal numeral of `k`. */
  lemma LastWordOfMotorLabel(k: nat)
    ensures LastWord(MotorLabel(k)) == Some(NatToString(k))
  {
    var words := ["Motor", NatToString(k)];
    assert IsWord(words[0]);
    assert IsWord(words[1]) by {
      var d := NatToString(k);
      forall i | 0 <= i < |d|
        ensures !IsSpace(d[i])
      {
        assert IsDigit(d[i]);
      }
    }
    assert Join(words) == MotorLabel(k);
    SplitJoin(words);
  }

  /** Every dropdown option does what its label says: option `k` starts the
      pump on the relay at position `k - 1` and the last option starts them
      all, with any volume `int()` accepts; with a volume it refuses the
      button fails with ValueError. */
  lemma DispatchOption(v: Variant, i: nat, volumeText: string)
    requires i <= |RelayPins(v)|
    ensures var n := |RelayPins(v)|;
            Dispatch(v, MotorOptions(n)[i], volumeText) ==
              (match ParseInt(volumeText)
               case None => Err(NotAnInteger(volumeText))
               case Some(volume) =>
                 if i == n then Ok(AllMotors(volume))
                 else Ok(OneMotor(RelayPins(v)[i], volume)))
  {
    if i < |RelayPins(v)| {
      DispatchMotorOption(v, i, volumeText);
    }
  }

  lemma DispatchMotorOption(v: Variant, i: nat, volumeText: string)
    requires i < |RelayPins(v)|
    ensures Dispatch(v, MotorOptions(|RelayPins(v)|)[i], volumeText) ==
              (match ParseInt(volumeText)
               case None => Err(NotAnInteger(volumeText))
               case Some(volume) => Ok(OneMotor(RelayPins(v)[i], volume)))
  {
    var option := MotorOptions(|RelayPins(v)|)[i];
    var k := i + 1;
    assert option != AllMotorsLabel by {
      assert option == MotorLabel(k);
      assert option[0] != AllMotorsLabel[0];
    }
    assert ParseInt(NatToString(k)) == Some(k) by {
      ShortNumeral(k);
      ParseNatToString(k);
    }
    DispatchMotor(v, option, NatToString(k), k, volumeText);
  }

  /** A selection other than "All Motors" whose last word reads as motor
      number `k` starts relay `k` with whatever volume `int()` reads. */
  lemma DispatchMotor(v: Variant, selection: string, word: string, k: int, volumeText: string)
    requires selection != AllMotorsLabel && LastWord(selection) == Some(word)
    requires ParseInt(word) == Some(k) && 1 <= k <= |RelayPins(v)|
    ensures Dispatch(v, selection, volumeText) ==
              (match ParseInt(volumeText)
               case None => Err(NotAnInteger(volumeText))
               case Some(volume) => Ok(OneMotor(RelayPins(v)[k - 1], volume)))
  {
    assert MotorLookup(MotorMapping(RelayPins(v)), k) == Ok(RelayPins(v)[k - 1]);
  }

  /** Different motor options never start the same pump: with the same
      volume, two distinct options give two distinct requests. */
  lemma OptionsTargetDistinctRelays(v: Variant, i: nat, j: nat, volumeText: string)
    requires i < j < |RelayPins(v)|
    requires ParseInt(volumeText).Some?
    ensures Dispatch(v, MotorOptions(|RelayPins(v)|)[i], volumeText) !=
            Dispatch(v, MotorOptions(|RelayPins(v)|)[j], volumeText)
  {
    var pins, volume := RelayPins(v), ParseInt(volumeText).value;
    var options := MotorOptions(|pins|);
    DispatchOption(v, i, volumeText);
    DispatchOption(v, j, volumeText);
    assert Dispatch(v, options[i], volumeText) == Ok(OneMotor(pins[i], volume));
    assert Dispatch(v, options[j], volumeText) == Ok(OneMotor(pins[j], volume));
  }

  /** A label naming a motor number outside 1..N, such as "Motor 0" or
      "Motor 12" typed into the combobox, fails with KeyError before the
      volume is read; a numeral too long for `int()` fails with ValueError
      instead. */
  lemma DispatchUnknownMotor(v: Variant, k: nat, volumeText: string)
    requires k == 0 || k > |RelayPins(v)|
    ensures Dispatch(v, MotorLabel(k), volumeText) ==
              if |NatToString(k)| <= MaxStrDigits then Err(MissingMotor(k))
              else Err(NotAnInteger(NatToString(k)))
  {
    assert MotorLabel(k)[0] != AllMotorsLabel[0];
    LastWordOfMotorLabel(k);
    ParseNatToString(k);
  }
}
