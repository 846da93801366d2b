/** Dispense plans: the (pin, volume) pairs a recipe or the all-motors button
    turns into, and the order in which the recipe's pairs are launched. */
module Plans {
  import opened Outcomes
  import opened Relays

  /** One line of a recipe: the motor to run, a display name, millilitres. */
  datatype Ingredient = Ingredient(motor: int, name: string, quantity: real)

  /** One pump activation: the relay to drive and the volume to dispense. */
  datatype Job = Job(pin: Pin, volume: real)

  /** `flow_rate`, in millilitres per second; the same in both variants. */
  const FlowRate: real := 1.5

  /** `run_time = volume / flow_rate`, as an exact quotient: pumping for the
      run time at the flow rate dispenses exactly the volume, and the run
      time is negative exactly when the volume is. */
  function RunTime(volume: real): (t: real)
    ensures t * FlowRate == volume
    ensures t < 0.0 <==> volume < 0.0
  {
    volume / FlowRate
  }

  function Pow2(n: nat): nat {
    if n == 0 then 1 else 2 * Pow2(n - 1)
  }

  /** The least magnitude at which an integer no longer converts to a
      binary64 float: 2^1024 - 2^970, halfway between the largest finite
      double and 2^1024, which CPython's round-half-to-even conversion sends
      up to 2^1024 and reports as OverflowError. */
  const FloatOverflow: int := Pow2(1024) - Pow2(970)

  /** An integer volume that `volume / flow_rate` can convert to a float. */
  predicate FitsFloat(volume: int) {
    -FloatOverflow < volume < FloatOverflow
  }

  function PinsOf(plan: seq<Job>): seq<Pin> {
    seq(|plan|, i requires 0 <= i < |plan| => plan[i].pin)
  }

  predicate SortedByVolume(plan: seq<Job>) {
    forall i, j :: 0 <= i < j < |plan| ==> plan[i].volume <= plan[j].volume
  }

  /** The jobs of volume `v`, in the order the plan lists them. A sort is
      stable exactly when it keeps each of these subsequences unchanged. */
  function WithVolume(plan: seq<Job>, v: real): seq<Job> {
    if plan == [] then []
    else (if plan[0].volume == v then [plan[0]] else []) + WithVolume(plan[1..], v)
  }

  /** The `run_times` comprehension: one (pin, volume) pair per ingredient,
      in ingredient order, each motor looked up in `motor_mapping`. The
      first ingredient whose motor is not mapped raises KeyError. */
  function BuildPlan(m: map<int, Pin>, ingredients: seq<Ingredient>): (r: Result<seq<Job>>)
    ensures r.Ok? <==> forall i :: 0 <= i < |ingredients| ==> ingredients[i].motor in m
    ensures r.Ok? ==> |r.value| == |ingredients|
    ensures r.Ok? ==> forall i :: 0 <= i < |ingredients| ==>
              r.value[i] == Job(m[ingredients[i].motor], ingredients[i].quantity)
    ensures r.Err? ==> exists i :: (0 <= i < |ingredients| && FirstUnmapped(m, ingredients, i) &&
                                    r.fault == MissingMotor(ingredients[i].motor))
  {
    if ingredients == [] then Ok([])
    else
      var head := ingredients[0];
      if head.motor !in m then
        assert FirstUnmapped(m, ingredients, 0);
        Err(MissingMotor(head.motor))
      else
        match BuildPlan(m, ingredients[1..])
        case Err(f) =>
          var i :| 0 <= i < |ingredients[1..]| && FirstUnmapped(m, ingredients[1..], i) &&
                   f == MissingMotor(ingredients[1..][i].motor);
          assert FirstUnmapped(m, ingredients, i + 1);
          Err(f)
        case Ok(rest) => Ok([Job(m[head.motor], head.quantity)] + rest)
  }

  /** Position `i` holds the first ingredient whose motor is not mapped. */
  predicate FirstUnmapped(m: map<int, Pin>, ingredients: seq<Ingredient>, i: nat)
    requires i < |ingredients|
  {
    ingredients[i].motor !in m && forall j :: 0 <= j < i ==> ingredients[j].motor in m
  }

  /** Places `x` in front of the first job whose volume is at least its own. */
  function Insert(x: Job, plan: seq<Job>): seq<Job> {
    if plan == [] || x.volume <= plan[0].volume then [x] + plan
    else [plan[0]] + Insert(x, plan[1..])
  }

  /** `run_times.sort(key=lambda x: x[1])`: ascending by volume, stable, a
      permutation of its input. */
  function SortByVolume(plan: seq<Job>): (sorted: seq<Job>)
    ensures SortedByVolume(sorted)
    ensures multiset(sorted) == multiset(plan)
    ensures forall v :: WithVolume(sorted, v) == WithVolume(plan, v)
  {
    if plan == [] then []
    else
      var rest := SortByVolume(plan[1..]);
      InsertSorted(plan[0], rest);
      InsertPermutes(plan[0], rest);
      InsertStable(plan[0], rest);
      assert plan == [plan[0]] + plan[1..];
      assert forall v :: WithVolume(plan, v) == (if plan[0].volume == v then [plan[0]] else []) + WithVolume(plan[1..], v);
      Insert(plan[0], rest)
  }

  lemma {:induction false} InsertPermutes(x: Job, plan: seq<Job>)
    ensures multiset(Insert(x, plan)) == multiset(plan) + multiset{x}
  {
    if plan != [] && x.volume > plan[0].volume {
      InsertPermutes(x, plan[1..]);
      assert plan == [plan[0]] + plan[1..];
    }
  }

  lemma {:induction false} InsertSorted(x: Job, plan: seq<Job>)
    requires SortedByVolume(plan)
    ensures SortedByVolume(Insert(x, plan))
  {
    if plan != [] && x.volume > plan[0].volume {
      var tail := plan[1..];
      InsertSorted(x, tail);
      InsertPermutes(x, tail);
      var r := Insert(x, tail);
      forall k | 0 <= k < |r|
        ensures plan[0].volume <= r[k].volume
      {
        assert r[k] in multiset(r);
        if r[k] != x {
          assert r[k] in multiset(tail);
          var t :| 0 <= t < |tail| && tail[t] == r[k];
          assert tail[t] == plan[t + 1];
        }
      }
      assert Insert(x, plan) == [plan[0]] + r;
    }
  }

  lemma {:induction false} InsertStable(x: Job, plan: seq<Job>)
    ensures forall v :: WithVolume(Insert(x, plan), v) ==
              (if x.volume == v then [x] else []) + WithVolume(plan, v)
  {
    var r := Insert(x, plan);
    if plan == [] || x.volume <= plan[0].volume {
      assert r[1..] == plan;
    } else {
      InsertStable(x, plan[1..]);
      assert r[1..] == Insert(x, plan[1..]);
    }
  }

  /** A job is among the jobs of volume `v` exactly when it is in the plan
      and has that volume. */
  lemma {:induction false} InWithVolume(plan: seq<Job>, v: real, x: Job)
    ensures x in WithVolume(plan, v) <==> x in plan && x.volume == v
  {
    if plan != [] {
      InWithVolume(plan[1..], v, x);
      assert plan == [plan[0]] + plan[1..];
    }
  }

  /** A plan with no job of any volume is empty. */
  lemma NoVolumesNoJobs(plan: seq<Job>)
    requires forall v :: WithVolume(plan, v) == []
    ensures plan == []
  {
    assert plan != [] ==> WithVolume(plan, plan[0].volume) == [];
  }

  /** Two plans sorted by volume that list the jobs of every volume in the
      same order start with the same job: the smallest volume's first job. */
  lemma SameFirstJob(a: seq<Job>, b: seq<Job>)
    requires a != [] && b != []
    requires SortedByVolume(a) && SortedByVolume(b)
    requires forall v :: WithVolume(a, v) == WithVolume(b, v)
    ensures a[0] == b[0]
  {
    var m, n := a[0].volume, b[0].volume;
    InWithVolume(a, m, a[0]);
    assert a[0] in WithVolume(b, m);
    InWithVolume(b, m, a[0]);
    assert n <= m;
    InWithVolume(b, n, b[0]);
    assert b[0] in WithVolume(a, n);
    InWithVolume(a, n, b[0]);
    assert m <= n;
    assert WithVolume(a, m)[0] == a[0];
    assert WithVolume(b, m)[0] == b[0];
  }

  /** Dropping the same first job from both plans keeps the per-volume
      orders equal. */
  lemma SameRest(a: seq<Job>, b: seq<Job>)
    requires a != [] && b != [] && a[0] == b[0]
    requires forall v :: WithVolume(a, v) == WithVolume(b, v)
    ensures forall v :: WithVolume(a[1..], v) == WithVolume(b[1..], v)
  {
    forall v
      ensures WithVolume(a[1..], v) == WithVolume(b[1..], v)
    {
      if v == a[0].volume {
        assert WithVolume(a[1..], v) == WithVolume(a, v)[1..];
        assert WithVolume(b[1..], v) == WithVolume(b, v)[1..];
      } else {
        assert WithVolume(a, v) == WithVolume(a[1..], v);
        assert WithVolume(b, v) == WithVolume(b[1..], v);
      }
    }
  }

  /** Stable ascending order is unique: two plans sorted by volume that list
      the jobs of every volume in the same order are the same plan. */
  lemma {:induction false} StableOrderUnique(a: seq<Job>, b: seq<Job>)
    requires SortedByVolume(a) && SortedByVolume(b)
    requires forall v :: WithVolume(a, v) == WithVolume(b, v)
    ensures a == b
    decreases |a| + |b|
  {
    if a == [] || b == [] {
      assert WithVolume([], 0.0) == [];
      NoVolumesNoJobs(a);
      NoVolumesNoJobs(b);
    } else {
      SameFirstJob(a, b);
      SameRest(a, b);
      assert SortedByVolume(a[1..]) && SortedByVolume(b[1..]);
      StableOrderUnique(a[1..], b[1..]);
      calc {
        a;
        [a[0]] + a[1..];
        [b[0]] + b[1..];
        b;
      }
    }
  }

  /** Whatever stable algorithm orders the plan (Python's `list.sort` is
      one), its result is the one `SortByVolume` computes. */
  lemma AnyStableSortAgrees(plan: seq<Job>, other: seq<Job>)
    requires SortedByVolume(other)
    requires forall v :: WithVolume(other, v) == WithVolume(plan, v)
    ensures other == SortByVolume(plan)
  {
    StableOrderUnique(other, SortByVolume(plan));
  }

  /** With a positive flow rate, ascending volume is ascending run time. */
  lemma SortedByRunTime(plan: seq<Job>)
    requires SortedByVolume(plan)
    ensures forall i, j :: 0 <= i < j < |plan| ==> RunTime(plan[i].volume) <= RunTime(plan[j].volume)
  {
  }

  /** The pairs the ingredient list stands for, in ingredient order. */
  function Wanted(m: map<int, Pin>, ingredients: seq<Ingredient>): seq<Job>
    requires forall i :: 0 <= i < |ingredients| ==> ingredients[i].motor in m
  {
    seq(|ingredients|, i requires 0 <= i < |ingredients| =>
      Job(m[ingredients[i].motor], ingredients[i].quantity))
  }

  /** The plan `make_cocktail` launches: the ingredient pairs sorted by
      volume. It fails with KeyError exactly when an ingredient names a motor
      the mapping lacks; otherwise it holds one pair per ingredient, with that
      ingredient's mapped pin and quantity, ascending by volume, ingredients
      of equal volume in recipe order. */
  function RecipePlan(m: map<int, Pin>, ingredients: seq<Ingredient>): (r: Result<seq<Job>>)
    ensures r.Ok? <==> forall i :: 0 <= i < |ingredients| ==> ingredients[i].motor in m
    ensures r.Ok? ==> SortedByVolume(r.value)
    ensures r.Ok? ==> multiset(r.value) == multiset(Wanted(m, ingredients))
    ensures r.Ok? ==> forall v :: WithVolume(r.value, v) == WithVolume(Wanted(m, ingredients), v)
    ensures r.Ok? ==> forall k :: 0 <= k < |r.value| ==> r.value[k].pin in m.Values
    ensures r.Err? ==> exists i :: (0 <= i < |ingredients| && FirstUnmapped(m, ingredients, i) &&
                                    r.fault == MissingMotor(ingredients[i].motor))
  {
    match BuildPlan(m, ingredients)
    case Err(f) => Err(f)
    case Ok(plan) =>
      assert plan == Wanted(m, ingredients);
      var sorted := SortByVolume(plan);
      assert forall k :: 0 <= k < |sorted| ==> sorted[k].pin in m.Values by {
        forall k | 0 <= k < |sorted|
          ensures sorted[k].pin in m.Values
        {
          assert sorted[k] in multiset(plan);
          var i :| 0 <= i < |plan| && plan[i] == sorted[k];
          assert m[ingredients[i].motor] == sorted[k].pin;
        }
      }
      Ok(sorted)
  }

  /** `start_all_motors`' plan: every relay with the same volume, in
      `relay_pins` order. */
  function AllMotorsPlan(pins: seq<Pin>, volume: real): (plan: seq<Job>)
    ensures PinsOf(plan) == pins
    ensures forall k :: 0 <= k < |plan| ==> plan[k].volume == volume
  {
    seq(|pins|, i requires 0 <= i < |pins| => Job(pins[i], volume))
  }

  /** The all-motors plan has one job per relay: it names every relay, each
      exactly once when the relays are distinct, and asks each for the same
      volume. */
  lemma AllMotorsPlanCovers(pins: seq<Pin>, volume: real)
    requires Distinct(pins)
    ensures |AllMotorsPlan(pins, volume)| == |pins|
    ensures PinsOf(AllMotorsPlan(pins, volume)) == pins
    ensures (set k | 0 <= k < |pins| :: AllMotorsPlan(pins, volume)[k].pin) == set p | p in pins
    ensures Distinct(PinsOf(AllMotorsPlan(pins, volume)))
    ensures forall k :: 0 <= k < |pins| ==> AllMotorsPlan(pins, volume)[k].volume == volume
  {
    var plan := AllMotorsPlan(pins, volume);
    assert PinsOf(plan) == pins;
    forall p | p in pins
      ensures p in set k | 0 <= k < |pins| :: plan[k].pin
    {
      var k :| 0 <= k < |pins| && pins[k] == p;
      assert plan[k].pin == p;
    }
  }
}
