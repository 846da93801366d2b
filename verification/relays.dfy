/** The relay board: the GPIO pins that drive the pumps in each variant of
    the script, and the motor-number to pin mapping built from them. */
module Relays {
  import opened Outcomes

  /** A board-numbered GPIO pin. */
  type Pin = int

  /** The two variants of the script. `RemovedFlag(linked)` tries to open the
      serial port and keeps going without it (`linked` says whether it
      opened); `SerialMain` opens it unconditionally and cannot start without
      it, so a running `SerialMain` always has the link. */
  datatype Variant = RemovedFlag(linked: bool) | SerialMain

  predicate Distinct(s: seq<Pin>) {
    forall i, j :: 0 <= i < j < |s| ==> s[i] != s[j]
  }

  /** `relay_pins`: eleven relays in one variant, the first ten of them in the
      other, no pin listed twice. */
  function RelayPins(v: Variant): (pins: seq<Pin>)
    ensures |pins| == (if v.RemovedFlag? then 11 else 10)
    ensures Distinct(pins)
  {
    match v
    case RemovedFlag(_) => [26, 21, 19, 15, 13, 11, 7, 5, 31, 33, 35]
    case SerialMain => [26, 21, 19, 15, 13, 11, 7, 5, 31, 33]
  }

  /** The serial variant's relays are the first ten of the other variant's,
      in the same order, whether or not its link opened. */
  lemma SerialPinsPrefix(linked: bool)
    ensures RelayPins(SerialMain) == RelayPins(RemovedFlag(linked))[..10]
  {
  }

  /** `motor_mapping`, built as the dict comprehension builds it: entry
      `i + 1: pin` inserted for each position `i` of the pin list in turn.
      Motor `k` (counting from one) is the relay at position `k - 1`, and no
      other key is present. */
  function MotorMapping(pins: seq<Pin>): (m: map<int, Pin>)
    ensures forall k :: k in m <==> 1 <= k <= |pins|
    ensures forall k :: 1 <= k <= |pins| ==> m[k] == pins[k - 1]
  {
    if pins == [] then map[]
    else MotorMapping(pins[..|pins| - 1])[|pins| := pins[|pins| - 1]]
  }

  /** `motor_mapping[k]`, failing with KeyError when `k` is not a motor. */
  function MotorLookup(m: map<int, Pin>, k: int): (r: Result<Pin>)
    ensures r.Ok? <==> k in m
    ensures r.Ok? ==> r.value == m[k]
    ensures r.Err? ==> r.fault == MissingMotor(k)
  {
    if k in m then Ok(m[k]) else Err(MissingMotor(k))
  }

  /** `list.index`: the first position holding `x`, None where Python raises
      ValueError. */
  function IndexOf(s: seq<Pin>, x: Pin): (r: Option<nat>)
    ensures r.Some? <==> x in s
    ensures r.Some? ==> r.value < |s| && s[r.value] == x
    ensures r.Some? ==> forall j :: 0 <= j < r.value ==> s[j] != x
  {
    if s == [] then None
    else if s[0] == x then Some(0)
    else match IndexOf(s[1..], x)
      case None => None
      case Some(i) => Some(i + 1)
  }

  /** With distinct pins the mapping is injective: two motor numbers never
      share a relay. */
  lemma MappingInjective(pins: seq<Pin>)
    requires Distinct(pins)
    ensures forall k, j ::
              (k in MotorMapping(pins) && j in MotorMapping(pins) &&
               MotorMapping(pins)[k] == MotorMapping(pins)[j]) ==> k == j
  {
    var m := MotorMapping(pins);
    forall k, j | k in m && j in m && m[k] == m[j]
      ensures k == j
    {
      assert pins[k - 1] == pins[j - 1];
    }
  }

  /** Every relay is the target of some motor number, and every motor number
      targets a relay. */
  lemma MappingCoversPins(pins: seq<Pin>)
    ensures MotorMapping(pins).Values == set p | p in pins
  {
    var m := MotorMapping(pins);
    forall p | p in pins
      ensures p in m.Values
    {
      var i :| 0 <= i < |pins| && pins[i] == p;
      assert m[i + 1] == p;
    }
  }

  /** The motor number `start_pump` prints, `relay_pins.index(pin) + 1`, is
      the number the pin was looked up under. */
  lemma MotorNumberRoundTrip(pins: seq<Pin>, k: int)
    requires Distinct(pins)
    requires k in MotorMapping(pins)
    ensures IndexOf(pins, MotorMapping(pins)[k]) == Some(k - 1)
  {
    var r := IndexOf(pins, MotorMapping(pins)[k]);
    assert pins[r.value] == pins[k - 1];
  }
}
