/** The script's run-time state and the operations that change it, with the
    pump threads of one request run one after another. GPIO outputs become a
    level per pin plus the list of every write made, the serial port becomes
    an append-only command log, and `time.time()` becomes a clock that only
    moves forward. */
module Machine {
  import opened Outcomes
  import opened Relays
  import opened Plans
  import opened Notifications
  import opened Selector
  import opened Text

  /** A relay input level. The relays are active-low: High is off. */
  datatype Level = High | Low

  /** One `GPIO.output(pin, level)` call. */
  datatype Write = Write(pin: Pin, level: Level)

  type NonNeg = r: real | r >= 0.0

  datatype State = State(
    levels: map<Pin, Level>,   // the level last written to each pin
    writes: seq<Write>,        // every GPIO write, oldest first
    starts: map<Pin, real>,    // pump_start_times
    ends: map<Pin, real>,      // pump_end_times
    sent: seq<string>,         // commands written to the serial port
    running: bool,             // pump_running
    now: real,                 // the clock `time.time()` reads
    booted: real)              // that clock's reading when the machine booted

  /** The levels a sequence of writes leaves behind. */
  function Replay(writes: seq<Write>): map<Pin, Level> {
    if writes == [] then map[]
    else Replay(writes[..|writes| - 1])[writes[|writes| - 1].pin := writes[|writes| - 1].level]
  }

  /** The state invariant: the levels are what the writes left, exactly the
      relay pins are set up, every timed pin has both a start and an end, and
      no recorded run ends before it starts or after the present. */
  ghost predicate Valid(v: Variant, s: State) {
    && s.levels == Replay(s.writes)
    && (forall p :: p in s.levels <==> p in RelayPins(v))
    && s.starts.Keys == s.ends.Keys
    && (forall p :: p in s.starts ==> p in s.levels)
    && (forall p :: p in s.starts ==> s.starts[p] <= s.ends[p] <= s.now)
  }

  /** Every set-up relay is off. */
  predicate AllOff(s: State) {
    forall p :: p in s.levels ==> s.levels[p] == High
  }

  /** Every relay has been set up as an output (`GPIO.setup`); writing to
      any other pin raises in RPi.GPIO. */
  predicate SetUp(v: Variant, s: State) {
    forall p :: p in RelayPins(v) ==> p in s.levels
  }

  /** Whether a send reaches the LED controller. */
  function Linked(v: Variant): bool {
    match v
    case RemovedFlag(linked) => linked
    case SerialMain => true
  }

  /** The two states agree on everything but the GPIO pins. */
  predicate SameExceptPins(r: State, s: State) {
    r.starts == s.starts && r.ends == s.ends && r.sent == s.sent &&
    r.running == s.running && r.now == s.now && r.booted == s.booted
  }

  /** `GPIO.output(pin, level)`. */
  function Output(s: State, pin: Pin, level: Level): (r: State)
    ensures r.levels == s.levels[pin := level]
    ensures r.writes == s.writes + [Write(pin, level)]
    ensures s.levels == Replay(s.writes) ==> r.levels == Replay(r.writes)
    ensures SameExceptPins(r, s)
  {
    var writes := s.writes + [Write(pin, level)];
    assert writes[..|writes| - 1] == s.writes;
    s.(levels := s.levels[pin := level], writes := writes)
  }

  /** The same level written to each pin of a list, in list order: the
      set-up loop, and `GPIO.output(relay_pins, GPIO.HIGH)`. */
  function OutputAll(s: State, pins: seq<Pin>, level: Level): (r: State)
    ensures r.writes == s.writes + seq(|pins|, i requires 0 <= i < |pins| => Write(pins[i], level))
    ensures forall p :: p in r.levels <==> p in s.levels || p in pins
    ensures forall p :: p in r.levels ==> r.levels[p] == (if p in pins then level else s.levels[p])
    ensures s.levels == Replay(s.writes) ==> r.levels == Replay(r.writes)
    ensures SameExceptPins(r, s)
    decreases |pins|
  {
    if pins == [] then s
    else
      var r := OutputAll(Output(s, pins[0], level), pins[1..], level);
      assert forall p :: p in pins <==> p == pins[0] || p in pins[1..];
      r
  }

  /** A notification through `send_command_to_arduino`: the command joins
      the log when there is a link, and nothing else changes. */
  function Notify(v: Variant, s: State, command: string): (r: State)
    ensures r.sent == s.sent + (if Linked(v) then [command] else [])
    ensures r.(sent := s.sent) == s
  {
    s.(sent := Send(Linked(v), s.sent, command))
  }

  /** Start-up: every relay set up and driven HIGH, in `relay_pins` order,
      and (in the variant that has it) WAITING sent once the window is up.
      Nothing has run, so there is no telemetry. The machine has been up for
      `uptime` seconds when the script starts. */
  function Boot(v: Variant, clock: real, uptime: NonNeg): (s: State)
    ensures Valid(v, s) && AllOff(s) && SetUp(v, s)
    ensures s.now == clock && s.now - s.booted == uptime
    ensures s.writes == seq(|RelayPins(v)|, i requires 0 <= i < |RelayPins(v)| => Write(RelayPins(v)[i], High))
    ensures s.starts == map[] && s.ends == map[] && !s.running
    ensures s.sent == (if v.RemovedFlag? && Linked(v) then [Waiting] else [])
  {
    var s := OutputAll(State(map[], [], map[], map[], [], false, clock, clock - uptime), RelayPins(v), High);
    if v.RemovedFlag? then Notify(v, s, Waiting) else s
  }

  /** How a pump job ended, and what `start_pump` returned: the variant with
      the `try`/`finally` returns the elapsed time, the other returns None. */
  datatype JobEnd = JobEnd(state: State, result: Result<Option<real>>)

  function Max0(x: real): real {
    if x < 0.0 then 0.0 else x
  }

  /** The pin driven LOW and then HIGH again: a pump switched on and off. */
  function Pulse(s: State, pin: Pin): (r: State)
    ensures r.levels == s.levels[pin := High]
    ensures r.writes == s.writes + [Write(pin, Low), Write(pin, High)]
    ensures s.levels == Replay(s.writes) ==> r.levels == Replay(r.writes)
    ensures SameExceptPins(r, s)
  {
    var on := Output(s, pin, Low);
    var r := Output(on, pin, High);
    assert r.levels == s.levels[pin := High];
    r
  }

  /** The largest count of nanoseconds CPython's timeouts hold (a signed
      64-bit integer). */
  const MaxNanos: int := 0x7fff_ffff_ffff_ffff

  /** `time.sleep(seconds)` on a machine that has been up for `uptime`
      seconds raises:
      - ValueError for a negative delay;
      - OverflowError for a delay whose count of nanoseconds, rounded up, does
        not fit in `MaxNanos`;
      - OSError (EINVAL) when the delay fits but the deadline it waits for,
        the monotonic clock (the uptime) plus the delay, does not: CPython
        sleeps with `clock_nanosleep` until that absolute deadline, and the
        sum saturates at `MaxNanos`. */
  predicate SleepRaises(seconds: real, uptime: real) {
    || seconds < 0.0
    || seconds * 1000000000.0 > MaxNanos as real
    || (uptime + seconds) * 1000000000.0 > MaxNanos as real
  }

  /** A job on this volume, started at this uptime, ends in the `finally`
      block's failure: only the variant that sleeps can fail there. */
  predicate JobRaises(v: Variant, volume: real, uptime: real) {
    v.SerialMain? && SleepRaises(RunTime(volume), uptime)
  }

  /** `start_pump(pin, volume)`: the pin goes LOW, the job waits out
      `volume / flow_rate` (plus whatever `lag` the clock adds), the pin goes
      HIGH and the start and end times are recorded for that pin. In the
      variant that sleeps, a delay `time.sleep` refuses (negative, or beyond
      its nanosecond range once added to the uptime) makes it raise; the `finally` block still turns
      the pin off but then fails reading the unbound `end_time`, so nothing
      is recorded. */
  function PumpJob(v: Variant, s: State, job: Job, lag: NonNeg): (r: JobEnd)
    requires job.pin in s.levels
    ensures r.state.writes == s.writes + [Write(job.pin, Low), Write(job.pin, High)]
    ensures r.state.levels == s.levels[job.pin := High]
    ensures r.state.sent == s.sent && r.state.running == s.running
    ensures s.now <= r.state.now && r.state.booted == s.booted
    ensures r.result.Err? <==> JobRaises(v, job.volume, s.now - s.booted)
    ensures r.result.Err? ==> r.result.fault == UnboundEndTime
    ensures r.result.Err? ==> r.state.starts == s.starts && r.state.ends == s.ends
    ensures r.result.Ok? ==>
              && r.state.starts == s.starts[job.pin := s.now]
              && r.state.ends == s.ends[job.pin := r.state.now]
              && r.state.now - s.now >= RunTime(job.volume)
    ensures r.result.Ok? ==>
              r.result.value == (if v.SerialMain? then Some(r.state.now - s.now) else None)
  {
    if JobRaises(v, job.volume, s.now - s.booted) then
      JobEnd(Pulse(s, job.pin), Err(UnboundEndTime))
    else
      var r := TimedRun(s, job, lag);
      JobEnd(r, Ok(if v.SerialMain? then Some(r.ends[job.pin] - r.starts[job.pin]) else None))
  }

  /** A pump run that completes: on, wait at least the run time, off, and
      record both timestamps for the pin. */
  function TimedRun(s: State, job: Job, lag: NonNeg): (r: State)
    ensures r.writes == s.writes + [Write(job.pin, Low), Write(job.pin, High)]
    ensures r.levels == s.levels[job.pin := High]
    ensures s.levels == Replay(s.writes) ==> r.levels == Replay(r.writes)
    ensures r.sent == s.sent && r.running == s.running
    ensures r.starts == s.starts[job.pin := s.now]
    ensures r.ends == s.ends[job.pin := r.now]
    ensures s.now <= r.now && r.now - s.now >= RunTime(job.volume)
    ensures r.booted == s.booted
  {
    var end := s.now + Max0(RunTime(job.volume)) + lag;
    Pulse(s, job.pin).(starts := s.starts[job.pin := s.now], ends := s.ends[job.pin := end], now := end)
  }

  /** A pump job keeps the state invariant. */
  lemma PumpJobKeepsValid(v: Variant, s: State, job: Job, lag: NonNeg)
    requires job.pin in s.levels
    requires Valid(v, s)
    ensures Valid(v, PumpJob(v, s, job, lag).state)
  {
    if JobRaises(v, job.volume, s.now - s.booted) {
      PulseKeepsValid(v, s, job.pin);
    } else {
      TimedRunKeepsValid(v, s, job, lag);
    }
  }

  lemma PulseKeepsValid(v: Variant, s: State, pin: Pin)
    requires pin in s.levels && Valid(v, s)
    ensures Valid(v, Pulse(s, pin))
  {
    var r := Pulse(s, pin);
    assert forall p :: p in r.levels <==> p in s.levels;
  }

  lemma TimedRunKeepsValid(v: Variant, s: State, job: Job, lag: NonNeg)
    requires job.pin in s.levels && Valid(v, s)
    ensures Valid(v, TimedRun(s, job, lag))
  {
    var r := TimedRun(s, job, lag);
    assert forall p :: p in r.levels <==> p in s.levels;
  }

  /** The GPIO writes a plan makes: each job's pin LOW then HIGH, in plan
      order. */
  function PlanWrites(plan: seq<Job>): (w: seq<Write>)
    ensures |w| == 2 * |plan|
    ensures forall k :: 0 <= k < |plan| ==> w[2 * k] == Write(plan[k].pin, Low)
    ensures forall k :: 0 <= k < |plan| ==> w[2 * k + 1] == Write(plan[k].pin, High)
  {
    if plan == [] then []
    else
      var rest := PlanWrites(plan[1..]);
      var w := [Write(plan[0].pin, Low), Write(plan[0].pin, High)] + rest;
      assert forall k :: 1 <= k < |plan| ==> w[2 * k] == rest[2 * (k - 1)] by {
        forall k | 1 <= k < |plan| ensures w[2 * k] == rest[2 * (k - 1)] {
          assert plan[1..][k - 1] == plan[k];
        }
      }
      assert forall k :: 1 <= k < |plan| ==> w[2 * k + 1] == rest[2 * (k - 1) + 1] by {
        forall k | 1 <= k < |plan| ensures w[2 * k + 1] == rest[2 * (k - 1) + 1] {
          assert plan[1..][k - 1] == plan[k];
        }
      }
      w
  }

  /** The writes of a plan are its first job's pulse followed by the writes
      of the rest. */
  lemma PlanWritesFirst(before: seq<Write>, plan: seq<Job>)
    requires plan != []
    ensures before + [Write(plan[0].pin, Low), Write(plan[0].pin, High)] + PlanWrites(plan[1..]) ==
            before + PlanWrites(plan)
  {
    var pulse := [Write(plan[0].pin, Low), Write(plan[0].pin, High)];
    assert PlanWrites(plan) == pulse + PlanWrites(plan[1..]);
    assert (before + pulse) + PlanWrites(plan[1..]) == before + (pulse + PlanWrites(plan[1..]));
  }

  /** A plan touches no pin it does not name: every write it makes is to the
      pin of one of its jobs. */
  lemma PlanWritesOnlyPlanPins(plan: seq<Job>)
    ensures forall i :: 0 <= i < |PlanWrites(plan)| ==> PlanWrites(plan)[i].pin in PinsOf(plan)
  {
    var w := PlanWrites(plan);
    forall i | 0 <= i < |w|
      ensures w[i].pin in PinsOf(plan)
    {
      var k := i / 2;
      assert i == 2 * k || i == 2 * k + 1;
      assert PinsOf(plan)[k] == plan[k].pin;
    }
  }

  function FirstLag(lags: seq<NonNeg>): NonNeg {
    if lags == [] then 0.0 else lags[0]
  }

  function LaterLags(lags: seq<NonNeg>): seq<NonNeg> {
    if lags == [] then [] else lags[1..]
  }

  /** The "start a thread per pair, then join them all" group, with the
      threads run one after another, each with its own clock lag. A job that
      raises ends its own thread only; the others still run. */
  function RunPlan(v: Variant, s: State, plan: seq<Job>, lags: seq<NonNeg>): (r: State)
    requires forall k :: 0 <= k < |plan| ==> plan[k].pin in s.levels
    ensures r.writes == s.writes + PlanWrites(plan)
    ensures r.levels.Keys == s.levels.Keys
    ensures r.sent == s.sent && r.running == s.running
    ensures s.now <= r.now && r.booted == s.booted
    decreases |plan|
  {
    if plan == [] then s
    else
      var first := PumpJob(v, s, plan[0], FirstLag(lags)).state;
      PlanWritesFirst(s.writes, plan);
      RunPlan(v, first, plan[1..], LaterLags(lags))
  }

  /** After a plan every pin it names is off, and every other pin is as it
      was. */
  lemma {:induction false} RunPlanLevels(v: Variant, s: State, plan: seq<Job>, lags: seq<NonNeg>)
    requires forall k :: 0 <= k < |plan| ==> plan[k].pin in s.levels
    ensures var r := RunPlan(v, s, plan, lags);
            forall p :: p in r.levels ==> r.levels[p] == (if p in PinsOf(plan) then High else s.levels[p])
    decreases |plan|
  {
    if plan != [] {
      var first := PumpJob(v, s, plan[0], FirstLag(lags)).state;
      assert PinsOf(plan) == [plan[0].pin] + PinsOf(plan[1..]);
      RunPlanLevels(v, first, plan[1..], LaterLags(lags));
    }
  }

  /** Running a plan keeps the state invariant. */
  lemma {:induction false} RunPlanKeepsValid(v: Variant, s: State, plan: seq<Job>, lags: seq<NonNeg>)
    requires forall k :: 0 <= k < |plan| ==> plan[k].pin in s.levels
    requires Valid(v, s)
    ensures Valid(v, RunPlan(v, s, plan, lags))
    decreases |plan|
  {
    if plan != [] {
      PumpJobKeepsValid(v, s, plan[0], FirstLag(lags));
      RunPlanKeepsValid(v, PumpJob(v, s, plan[0], FirstLag(lags)).state, plan[1..], LaterLags(lags));
    }
  }

  /** A pin the plan does not name keeps its telemetry. */
  lemma {:induction false} RunPlanLeavesOthers(v: Variant, s: State, plan: seq<Job>, lags: seq<NonNeg>, p: Pin)
    requires forall k :: 0 <= k < |plan| ==> plan[k].pin in s.levels
    requires p !in PinsOf(plan)
    ensures var r := RunPlan(v, s, plan, lags);
            && (p in r.starts <==> p in s.starts) && (p in r.ends <==> p in s.ends)
            && (p in s.starts ==> r.starts[p] == s.starts[p])
            && (p in s.ends ==> r.ends[p] == s.ends[p])
    decreases |plan|
  {
    if plan != [] {
      assert PinsOf(plan) == [plan[0].pin] + PinsOf(plan[1..]);
      RunPlanLeavesOthers(v, PumpJob(v, s, plan[0], FirstLag(lags)).state, plan[1..], LaterLags(lags), p);
    }
  }

  /** No later job of the plan uses the pin of job `k`. */
  predicate LastFor(plan: seq<Job>, k: nat)
    requires k < |plan|
  {
    forall j :: k < j < |plan| ==> plan[j].pin != plan[k].pin
  }

  /** The clock once the first `n` jobs of a plan have run. */
  function ClockAfter(v: Variant, s: State, plan: seq<Job>, lags: seq<NonNeg>, n: nat): real
    requires forall i :: 0 <= i < |plan| ==> plan[i].pin in s.levels
    requires n <= |plan|
  {
    assert forall i :: 0 <= i < n ==> plan[..n][i] == plan[i];
    RunPlan(v, s, plan[..n], lags).now
  }

  /** What a plan leaves on record for the pin of job `k`: the start is the
      clock after the jobs before it, the end the clock after the job itself,
      so the run began no earlier than the plan and lasted at least the job's
      run time. */
  ghost predicate RecordsJob(v: Variant, s: State, plan: seq<Job>, lags: seq<NonNeg>, k: nat)
    requires forall i :: 0 <= i < |plan| ==> plan[i].pin in s.levels
    requires k < |plan|
  {
    var r := RunPlan(v, s, plan, lags);
    var p := plan[k].pin;
    && p in r.starts && p in r.ends
    && r.starts[p] == ClockAfter(v, s, plan, lags, k)
    && r.ends[p] == ClockAfter(v, s, plan, lags, k + 1)
    && s.now <= r.starts[p]
    && r.ends[p] - r.starts[p] >= RunTime(plan[k].volume)
  }

  /** The telemetry a plan leaves for a pin is that of the last job on the
      pin, if that job completed. */
  lemma {:induction false} RunPlanRecordsLast(v: Variant, s: State, plan: seq<Job>, lags: seq<NonNeg>, k: nat)
    requires forall i :: 0 <= i < |plan| ==> plan[i].pin in s.levels
    requires k < |plan| && LastFor(plan, k)
    requires !JobRaises(v, plan[k].volume, ClockAfter(v, s, plan, lags, k) - s.booted)
    ensures RecordsJob(v, s, plan, lags, k)
    decreases |plan|
  {
    if k == 0 {
      RunPlanRecordsFirst(v, s, plan, lags);
    } else {
      var first := PumpJob(v, s, plan[0], FirstLag(lags)).state;
      LastForRest(plan, k);
      RestSetUp(v, s, plan, lags);
      ClockAfterShift(v, s, plan, lags, k);
      RunPlanRecordsLast(v, first, plan[1..], LaterLags(lags), k - 1);
      RunPlanRecordsShift(v, s, plan, lags, k);
    }
  }

  /** The induction step of `RunPlanRecordsLast`: what the plan without its
      first job records for job `k - 1` is what the whole plan records for
      job `k`. */
  lemma RunPlanRecordsShift(v: Variant, s: State, plan: seq<Job>, lags: seq<NonNeg>, k: nat)
    requires forall i :: 0 <= i < |plan| ==> plan[i].pin in s.levels
    requires 0 < k < |plan|
    requires var first := PumpJob(v, s, plan[0], FirstLag(lags)).state;
             && (forall i :: 0 <= i < |plan[1..]| ==> plan[1..][i].pin in first.levels)
             && RecordsJob(v, first, plan[1..], LaterLags(lags), k - 1)
    ensures RecordsJob(v, s, plan, lags, k)
  {
    RunPlanFirst(v, s, plan, lags, k);
    RunPlanFirst(v, s, plan, lags, k + 1);
    assert plan[1..][k - 1] == plan[k];
  }

  /** The first job of a plan, when no later job shares its pin, leaves its
      own start and end on record. */
  lemma RunPlanRecordsFirst(v: Variant, s: State, plan: seq<Job>, lags: seq<NonNeg>)
    requires forall i :: 0 <= i < |plan| ==> plan[i].pin in s.levels
    requires |plan| > 0 && LastFor(plan, 0)
    requires !JobRaises(v, plan[0].volume, s.now - s.booted)
    ensures RecordsJob(v, s, plan, lags, 0)
  {
    var first := PumpJob(v, s, plan[0], FirstLag(lags)).state;
    var p := plan[0].pin;
    assert p !in PinsOf(plan[1..]) by {
      forall j | 0 <= j < |plan[1..]|
        ensures PinsOf(plan[1..])[j] != p
      {
        assert plan[1..][j] == plan[j + 1];
      }
    }
    RunPlanLeavesOthers(v, first, plan[1..], LaterLags(lags), p);
    assert ClockAfter(v, s, plan, lags, 0) == s.now by {
      assert plan[..0] == [];
    }
    assert ClockAfter(v, s, plan, lags, 1) == first.now by {
      RunPlanFirst(v, s, plan, lags, 1);
      assert plan[1..][..0] == [];
    }
  }

  /** The clock before job `k` of a plan is the clock before job `k - 1` of
      the rest, once the first job has run. */
  lemma ClockAfterShift(v: Variant, s: State, plan: seq<Job>, lags: seq<NonNeg>, k: nat)
    requires forall i :: 0 <= i < |plan| ==> plan[i].pin in s.levels
    requires 0 < k < |plan|
    ensures var first := PumpJob(v, s, plan[0], FirstLag(lags)).state;
            && (forall i :: 0 <= i < |plan[1..]| ==> plan[1..][i].pin in first.levels)
            && ClockAfter(v, first, plan[1..], LaterLags(lags), k - 1) == ClockAfter(v, s, plan, lags, k)
            && first.booted == s.booted
  {
    RestSetUp(v, s, plan, lags);
    RunPlanFirst(v, s, plan, lags, k);
  }

  /** Job `k` is the last on its pin in the plan, so job `k - 1` is in the
      plan without its first job. */
  lemma LastForRest(plan: seq<Job>, k: nat)
    requires 0 < k < |plan| && LastFor(plan, k)
    ensures plan[1..][k - 1] == plan[k] && LastFor(plan[1..], k - 1)
  {
    forall j | k - 1 < j < |plan[1..]|
      ensures plan[1..][j].pin != plan[1..][k - 1].pin
    {
      assert plan[1..][j] == plan[j + 1];
    }
  }

  /** The first job leaves every pin of the plan set up for the rest. */
  lemma RestSetUp(v: Variant, s: State, plan: seq<Job>, lags: seq<NonNeg>)
    requires forall i :: 0 <= i < |plan| ==> plan[i].pin in s.levels
    requires plan != []
    ensures var first := PumpJob(v, s, plan[0], FirstLag(lags)).state;
            forall i :: 0 <= i < |plan[1..]| ==> plan[1..][i].pin in first.levels
  {
    var first := PumpJob(v, s, plan[0], FirstLag(lags)).state;
    forall i | 0 <= i < |plan[1..]|
      ensures plan[1..][i].pin in first.levels
    {
      assert plan[1..][i] == plan[i + 1];
    }
  }

  /** Running the first `n` jobs of a plan is running its first job, then
      the next `n - 1`. */
  lemma RunPlanFirst(v: Variant, s: State, plan: seq<Job>, lags: seq<NonNeg>, n: nat)
    requires forall i :: 0 <= i < |plan| ==> plan[i].pin in s.levels
    requires 0 < n <= |plan|
    ensures var first := PumpJob(v, s, plan[0], FirstLag(lags)).state;
            RunPlan(v, s, plan[..n], lags) == RunPlan(v, first, plan[1..][..n - 1], LaterLags(lags))
  {
    assert plan[..n][0] == plan[0];
    assert plan[..n][1..] == plan[1..][..n - 1];
  }

  /** `start_all_motors(volume)`: one job per relay with the same volume, in
      `relay_pins` order; the variant that tolerates a missing link then
      sends COMPLETE, the other sends nothing. */
  function StartAllMotors(v: Variant, s: State, volume: real, lags: seq<NonNeg>): (r: State)
    requires SetUp(v, s)
    ensures r.writes == s.writes + PlanWrites(AllMotorsPlan(RelayPins(v), volume))
    ensures r.sent == s.sent + (if v.RemovedFlag? && Linked(v) then [Complete] else [])
    ensures r.running == s.running
    ensures r.levels.Keys == s.levels.Keys
  {
    var ran := RunPlan(v, s, AllMotorsPlan(RelayPins(v), volume), lags);
    if v.RemovedFlag? then Notify(v, ran, Complete) else ran
  }

  /** `start_all_motors` differs from running its plan only in the serial
      log. */
  lemma StartAllMotorsRunsPlan(v: Variant, s: State, volume: real, lags: seq<NonNeg>)
    requires SetUp(v, s)
    ensures var r := StartAllMotors(v, s, volume, lags);
            var ran := RunPlan(v, s, AllMotorsPlan(RelayPins(v), volume), lags);
            && r.levels == ran.levels && r.writes == ran.writes
            && r.starts == ran.starts && r.ends == ran.ends && r.now == ran.now
  {
  }

  /** After `start_all_motors` every relay is off again and no other pin has
      changed. */
  lemma StartAllMotorsTurnsOff(v: Variant, s: State, volume: real, lags: seq<NonNeg>)
    requires SetUp(v, s)
    ensures var r := StartAllMotors(v, s, volume, lags);
            && (forall p :: p in RelayPins(v) ==> p in r.levels && r.levels[p] == High)
            && (forall p :: p in r.levels && p !in RelayPins(v) ==> p in s.levels && r.levels[p] == s.levels[p])
  {
    AllMotorsPlanCovers(RelayPins(v), volume);
    StartAllMotorsRunsPlan(v, s, volume, lags);
    RunPlanLevels(v, s, AllMotorsPlan(RelayPins(v), volume), lags);
  }

  /** `start_all_motors` keeps the invariant and does not move the clock
      back. */
  lemma StartAllMotorsKeepsValid(v: Variant, s: State, volume: real, lags: seq<NonNeg>)
    requires Valid(v, s)
    ensures Valid(v, StartAllMotors(v, s, volume, lags))
    ensures s.now <= StartAllMotors(v, s, volume, lags).now
  {
    var pins := RelayPins(v);
    AllMotorsPlanCovers(pins, volume);
    RunPlanKeepsValid(v, s, AllMotorsPlan(pins, volume), lags);
    StartAllMotorsRunsPlan(v, s, volume, lags);
  }

  /** No job of the plan raises when it starts, at the uptime the clock has
      reached by then. */
  predicate NoneRaises(v: Variant, s: State, plan: seq<Job>, lags: seq<NonNeg>)
    requires forall i :: 0 <= i < |plan| ==> plan[i].pin in s.levels
  {
    forall k :: 0 <= k < |plan| ==> !JobRaises(v, plan[k].volume, ClockAfter(v, s, plan, lags, k) - s.booted)
  }

  /** In a plan giving every pin of a duplicate-free list the same volume,
      the job on pin `k` is the last on its pin, so its run is what stays on
      record. */
  lemma AllMotorsJobRecorded(v: Variant, s: State, pins: seq<Pin>, volume: real, lags: seq<NonNeg>, k: nat)
    requires Distinct(pins) && k < |pins|
    requires forall i :: 0 <= i < |pins| ==> pins[i] in s.levels
    requires !JobRaises(v, volume, ClockAfter(v, s, AllMotorsPlan(pins, volume), lags, k) - s.booted)
    ensures var plan := AllMotorsPlan(pins, volume);
            var r := RunPlan(v, s, plan, lags);
            && pins[k] in r.starts && pins[k] in r.ends
            && r.starts[pins[k]] == ClockAfter(v, s, plan, lags, k)
            && r.ends[pins[k]] == ClockAfter(v, s, plan, lags, k + 1)
            && s.now <= r.starts[pins[k]]
            && r.ends[pins[k]] - r.starts[pins[k]] >= RunTime(volume)
  {
    var plan := AllMotorsPlan(pins, volume);
    assert plan[k] == Job(pins[k], volume);
    assert LastFor(plan, k) by {
      forall j | k < j < |plan|
        ensures plan[j].pin != plan[k].pin
      {
        assert plan[j].pin == pins[j];
      }
    }
    RunPlanRecordsLast(v, s, plan, lags, k);
  }

  /** After `start_all_motors`, when the jobs complete, every relay has on
      record a run that started during the call and lasted at least the run
      time. */
  lemma StartAllMotorsRecords(v: Variant, s: State, volume: real, lags: seq<NonNeg>)
    requires SetUp(v, s)
    requires NoneRaises(v, s, AllMotorsPlan(RelayPins(v), volume), lags)
    ensures var r := StartAllMotors(v, s, volume, lags);
            forall p :: p in RelayPins(v) ==>
              && p in r.starts && p in r.ends && s.now <= r.starts[p]
              && r.ends[p] - r.starts[p] >= RunTime(volume)
  {
    StartAllMotorsRunsPlan(v, s, volume, lags);
    AllMotorsJobsRecorded(v, s, RelayPins(v), volume, lags);
  }

  /** Every pin of a duplicate-free list has its own run on record after the
      all-motors plan over that list. */
  lemma AllMotorsJobsRecorded(v: Variant, s: State, pins: seq<Pin>, volume: real, lags: seq<NonNeg>)
    requires Distinct(pins)
    requires forall i :: 0 <= i < |pins| ==> pins[i] in s.levels
    requires NoneRaises(v, s, AllMotorsPlan(pins, volume), lags)
    ensures var r := RunPlan(v, s, AllMotorsPlan(pins, volume), lags);
            forall p :: p in pins ==>
              && p in r.starts && p in r.ends && s.now <= r.starts[p]
              && r.ends[p] - r.starts[p] >= RunTime(volume)
  {
    var r := RunPlan(v, s, AllMotorsPlan(pins, volume), lags);
    forall p | p in pins
      ensures p in r.starts && p in r.ends && s.now <= r.starts[p]
      ensures r.ends[p] - r.starts[p] >= RunTime(volume)
    {
      var k :| 0 <= k < |pins| && pins[k] == p;
      AllMotorsJobRecorded(v, s, pins, volume, lags, k);
    }
  }

  /** What an operation that can fail part-way leaves: the state as far as
      it got, and the exception, if one was raised. */
  datatype Step = Step(state: State, fault: Option<Fault>)

  /** A pin some ingredient of the list is mapped to. */
  ghost predicate Named(m: map<int, Pin>, ingredients: seq<Ingredient>, p: Pin) {
    exists j :: 0 <= j < |ingredients| && ingredients[j].motor in m && m[ingredients[j].motor] == p
  }

  /** Every job of a recipe plan drives the pin of one of the recipe's own
      ingredients. */
  lemma RecipePlanPinsNamed(m: map<int, Pin>, ingredients: seq<Ingredient>)
    requires RecipePlan(m, ingredients).Ok?
    ensures forall p :: p in PinsOf(RecipePlan(m, ingredients).value) ==> Named(m, ingredients, p)
  {
    var plan := RecipePlan(m, ingredients).value;
    var wanted := Wanted(m, ingredients);
    forall p | p in PinsOf(plan)
      ensures Named(m, ingredients, p)
    {
      var k :| 0 <= k < |plan| && PinsOf(plan)[k] == p;
      assert plan[k] in multiset(wanted);
      var j :| 0 <= j < |wanted| && wanted[j] == plan[k];
    }
  }

  /** `make_cocktail(name)`. In order: the variant with the flag sets
      `pump_running`; the recipe's start code (if it has one) is sent; the
      recipe is looked up and its plan built, either of which can raise
      KeyError and end the operation there; the plan runs; COMPLETE is sent;
      the flag is cleared. A failure therefore leaves the pumps and the
      telemetry untouched but the start code sent and the flag still set. */
  function MakeCocktail(v: Variant, recipes: map<string, seq<Ingredient>>, s: State,
                        name: string, lags: seq<NonNeg>): (r: Step)
    requires SetUp(v, s)
    ensures r.fault == Some(MissingRecipe(name)) <==> name !in recipes
    ensures r.fault.None? <==>
              name in recipes && forall i :: 0 <= i < |recipes[name]| ==>
                recipes[name][i].motor in MotorMapping(RelayPins(v))
    ensures v.RemovedFlag? ==> r.state.running == r.fault.Some?
    ensures v.SerialMain? ==> r.state.running == s.running
    ensures r.state.levels.Keys == s.levels.Keys
    ensures r.fault.None? ==>
              r.state == Pour(v, Announce(v, s, name),
                              RecipePlan(MotorMapping(RelayPins(v)), recipes[name]).value, lags)
  {
    var announced := Announce(v, s, name);
    if name !in recipes then Step(announced, Some(MissingRecipe(name)))
    else
      match CocktailPlan(v, recipes[name])
      case Err(f) => Step(announced, Some(f))
      case Ok(plan) => Step(Pour(v, announced, plan, lags), None)
  }

  /** The end of a successful `make_cocktail`: the plan's threads run and
      are joined, COMPLETE is sent and the flag (where there is one) is
      cleared. */
  function Pour(v: Variant, s: State, plan: seq<Job>, lags: seq<NonNeg>): (r: State)
    requires forall k :: 0 <= k < |plan| ==> plan[k].pin in s.levels
    ensures r.sent == s.sent + (if Linked(v) then [Complete] else [])
    ensures r.running == (v.SerialMain? && s.running)
    ensures r == RunPlan(v, s, plan, lags).(sent := r.sent, running := r.running)
  {
    var done := Notify(v, RunPlan(v, s, plan, lags), Complete);
    if v.RemovedFlag? then done.(running := false) else done
  }

  /** What `make_cocktail` sends: the start code of a recipe that has one,
      then COMPLETE if the cocktail was poured, all only over a link. */
  lemma MakeCocktailSends(v: Variant, recipes: map<string, seq<Ingredient>>, s: State,
                          name: string, lags: seq<NonNeg>)
    requires SetUp(v, s)
    ensures var r := MakeCocktail(v, recipes, s, name, lags);
            r.state.sent == s.sent +
              (if Linked(v) then StartCodeCommands(name) + (if r.fault.None? then [Complete] else []) else [])
  {
    var r := MakeCocktail(v, recipes, s, name, lags);
    var announced := Announce(v, s, name);
    if name in recipes && CocktailPlan(v, recipes[name]).Ok? {
      var plan := CocktailPlan(v, recipes[name]).value;
      assert r.state == Pour(v, announced, plan, lags);
      if Linked(v) {
        assert announced.sent + [Complete] == s.sent + (StartCodeCommands(name) + [Complete]);
      }
    } else {
      assert r.state == announced;
    }
  }

  /** A `make_cocktail` that raises has touched no pump: the GPIO levels and
      writes, the telemetry and the clock are as they were. */
  lemma MakeCocktailFailsEarly(v: Variant, recipes: map<string, seq<Ingredient>>, s: State,
                               name: string, lags: seq<NonNeg>)
    requires SetUp(v, s)
    ensures var r := MakeCocktail(v, recipes, s, name, lags);
            r.fault.Some? ==>
              && r.state.writes == s.writes && r.state.levels == s.levels
              && r.state.starts == s.starts && r.state.ends == s.ends && r.state.now == s.now
  {
  }

  /** The first steps of `make_cocktail`: the flag is set (in the variant
      that has it) and the recipe's start code, if any, is sent. */
  function Announce(v: Variant, s: State, name: string): (r: State)
    ensures r.sent == s.sent + (if Linked(v) then StartCodeCommands(name) else [])
    ensures r.running == (v.RemovedFlag? || s.running)
    ensures r.levels == s.levels && r.writes == s.writes
    ensures r.starts == s.starts && r.ends == s.ends && r.now == s.now && r.booted == s.booted
  {
    var flagged := if v.RemovedFlag? then s.(running := true) else s;
    match StartCode(name)
    case Some(code) => Notify(v, flagged, code)
    case None => flagged
  }

  /** The recipe plan over this variant's motor mapping; every pin in it is
      a relay. */
  function CocktailPlan(v: Variant, ingredients: seq<Ingredient>): (r: Result<seq<Job>>)
    ensures r == RecipePlan(MotorMapping(RelayPins(v)), ingredients)
    ensures r.Err? ==> r.fault.MissingMotor?
    ensures r.Ok? ==> forall k :: 0 <= k < |r.value| ==> r.value[k].pin in RelayPins(v)
  {
    MappingCoversPins(RelayPins(v));
    RecipePlan(MotorMapping(RelayPins(v)), ingredients)
  }

  /** After a completed order, the last job of the recipe's plan on each pin
      is on record: it began during the order, no earlier than the clock
      when the order started, and lasted at least its run time, unless the
      sleeping variant's sleep raised for it. */
  lemma MakeCocktailRecords(v: Variant, recipes: map<string, seq<Ingredient>>, s: State,
                            name: string, lags: seq<NonNeg>, k: nat)
    requires SetUp(v, s)
    requires name in recipes
    requires CocktailPlan(v, recipes[name]).Ok?
    requires var plan := CocktailPlan(v, recipes[name]).value;
             && k < |plan| && LastFor(plan, k)
             && !JobRaises(v, plan[k].volume, ClockAfter(v, Announce(v, s, name), plan, lags, k) - s.booted)
    ensures var plan := CocktailPlan(v, recipes[name]).value;
            var r := MakeCocktail(v, recipes, s, name, lags).state;
            var p := plan[k].pin;
            && p in r.starts && p in r.ends
            && s.now <= r.starts[p]
            && r.ends[p] - r.starts[p] >= RunTime(plan[k].volume)
  {
    var plan := CocktailPlan(v, recipes[name]).value;
    var announced := Announce(v, s, name);
    RunPlanRecordsLast(v, announced, plan, lags, k);
  }

  /** A `make_cocktail` that completes makes one LOW/HIGH pair per
      ingredient, each on the pin of one of the recipe's own motors; no
      other pump is activated. */
  lemma MakeCocktailDrivesNamedPins(v: Variant, recipes: map<string, seq<Ingredient>>, s: State,
                                    name: string, lags: seq<NonNeg>)
    requires SetUp(v, s)
    ensures var r := MakeCocktail(v, recipes, s, name, lags);
            r.fault.None? ==>
              && |r.state.writes| == |s.writes| + 2 * |recipes[name]|
              && s.writes <= r.state.writes
              && (forall i :: |s.writes| <= i < |r.state.writes| ==>
                    Named(MotorMapping(RelayPins(v)), recipes[name], r.state.writes[i].pin))
  {
    var r := MakeCocktail(v, recipes, s, name, lags);
    if r.fault.None? {
      var m := MotorMapping(RelayPins(v));
      var plan := CocktailPlan(v, recipes[name]).value;
      var writes := r.state.writes;
      assert writes == s.writes + PlanWrites(plan);
      RecipePlanPinsNamed(m, recipes[name]);
      PlanWritesOnlyPlanPins(plan);
      forall i | |s.writes| <= i < |writes|
        ensures Named(m, recipes[name], writes[i].pin)
      {
        assert writes[i] == PlanWrites(plan)[i - |s.writes|];
      }
    }
  }

  /** `make_cocktail` keeps the invariant, leaves every relay that was off
      off again, and does not move the clock back. */
  lemma MakeCocktailKeepsValid(v: Variant, recipes: map<string, seq<Ingredient>>, s: State,
                               name: string, lags: seq<NonNeg>)
    requires Valid(v, s)
    ensures var r := MakeCocktail(v, recipes, s, name, lags);
            Valid(v, r.state) && (AllOff(s) ==> AllOff(r.state)) && s.now <= r.state.now
  {
    var announced := Announce(v, s, name);
    if name in recipes && CocktailPlan(v, recipes[name]).Ok? {
      PourKeepsValid(v, announced, CocktailPlan(v, recipes[name]).value, lags);
    }
  }

  /** Pouring a plan keeps the invariant and leaves every relay as off as it
      found it. */
  lemma PourKeepsValid(v: Variant, s: State, plan: seq<Job>, lags: seq<NonNeg>)
    requires Valid(v, s)
    requires forall k :: 0 <= k < |plan| ==> plan[k].pin in s.levels
    ensures var r := Pour(v, s, plan, lags);
            Valid(v, r) && (AllOff(s) ==> AllOff(r)) && s.now <= r.now
  {
    RunPlanKeepsValid(v, s, plan, lags);
    RunPlanLevels(v, s, plan, lags);
  }

  /** `stop_pumps` (only in the variant with the flag): HIGH written to every
      relay in `relay_pins` order and `pump_running` cleared, whatever the
      state before. Telemetry and the serial log are left alone. */
  function StopPumps(v: Variant, s: State): (r: State)
    requires v.RemovedFlag?
    ensures forall p :: p in RelayPins(v) ==> p in r.levels && r.levels[p] == High
    ensures forall p :: p in r.levels && p !in RelayPins(v) ==> p in s.levels && r.levels[p] == s.levels[p]
    ensures !r.running
    ensures r.starts == s.starts && r.ends == s.ends && r.sent == s.sent && r.now == s.now
    ensures Valid(v, s) ==> Valid(v, r) && AllOff(r)
  {
    OutputAll(s, RelayPins(v), High).(running := false)
  }

  /** The state without the history of GPIO writes: what a reader of the
      pins, the telemetry, the log and the flag can observe. */
  function Observe(s: State): State {
    s.(writes := [])
  }

  /** Stopping twice is stopping once, as far as anything observable goes. */
  lemma StopPumpsIdempotent(v: Variant, s: State)
    requires v.RemovedFlag?
    ensures Observe(StopPumps(v, StopPumps(v, s))) == Observe(StopPumps(v, s))
  {
    var once := StopPumps(v, s);
    var twice := StopPumps(v, once);
    OutputAllAgain(s, once, RelayPins(v), High);
  }

  /** Writing the same level to the same pins again leaves the levels as the
      first round left them. */
  lemma OutputAllAgain(s: State, t: State, pins: seq<Pin>, level: Level)
    requires t.levels == OutputAll(s, pins, level).levels
    ensures OutputAll(t, pins, level).levels == t.levels
  {
    var r := OutputAll(t, pins, level);
    assert r.levels.Keys == t.levels.Keys;
    forall p | p in r.levels
      ensures r.levels[p] == t.levels[p]
    {
    }
  }

  /** The Start button: the selection and volume text are read (see
      `Dispatch`); a failure there changes nothing. `volume / flow_rate`
      then converts the volume to a float: for a volume too large for that,
      every pump thread of "All Motors" dies before touching its pin (and the
      variant that has it still sends COMPLETE), and a single pump raises
      OverflowError. Otherwise "All Motors" runs `start_all_motors` and any
      other selection runs one `start_pump` on its relay, whose own failure
      is reported. */
  function StartButton(v: Variant, s: State, selection: string, volumeText: string,
                       lags: seq<NonNeg>): (r: Step)
    requires SetUp(v, s)
    ensures r.state.levels.Keys == s.levels.Keys
    ensures s.sent <= r.state.sent
    ensures Dispatch(v, selection, volumeText).Err? ==>
              r == Step(s, Some(Dispatch(v, selection, volumeText).fault))
    ensures Dispatch(v, selection, volumeText).Ok? && FitsFloat(Dispatch(v, selection, volumeText).value.volume) ==>
              s.writes < r.state.writes
    ensures Dispatch(v, selection, volumeText).Ok? && !FitsFloat(Dispatch(v, selection, volumeText).value.volume) ==>
              && r.state.(sent := s.sent) == s
              && r.fault == (if Dispatch(v, selection, volumeText).value.OneMotor? then Some(TooLargeForFloat) else None)
  {
    match Dispatch(v, selection, volumeText)
    case Err(f) => Step(s, Some(f))
    case Ok(AllMotors(volume)) => Step(StartAll(v, s, volume, lags), None)
    case Ok(OneMotor(pin, volume)) => StartOne(v, s, pin, volume, FirstLag(lags))
  }

  /** "All Motors" with a volume that parsed: `start_all_motors`; or, for a
      volume too large for a float, pump threads that all die before
      touching their pins, followed by COMPLETE in the variant that sends
      it. */
  function StartAll(v: Variant, s: State, volume: int, lags: seq<NonNeg>): (r: State)
    requires SetUp(v, s)
    ensures r.levels.Keys == s.levels.Keys
    ensures s.sent <= r.sent
    ensures FitsFloat(volume) ==> s.writes < r.writes
    ensures !FitsFloat(volume) ==> r.(sent := s.sent) == s
  {
    if !FitsFloat(volume) then (if v.RemovedFlag? then Notify(v, s, Complete) else s)
    else StartAllMotors(v, s, volume as real, lags)
  }

  /** One motor: `start_pump` on its relay, which raises OverflowError
      before touching the pin when the volume is too large for a float. */
  function StartOne(v: Variant, s: State, pin: Pin, volume: int, lag: NonNeg): (r: Step)
    requires pin in s.levels
    ensures r.state.levels.Keys == s.levels.Keys
    ensures r.state.sent == s.sent
    ensures FitsFloat(volume) ==>
              && r.state.writes == s.writes + [Write(pin, Low), Write(pin, High)]
              && (r.fault.Some? <==> JobRaises(v, volume as real, s.now - s.booted))
    ensures !FitsFloat(volume) ==> r == Step(s, Some(TooLargeForFloat))
  {
    if !FitsFloat(volume) then Step(s, Some(TooLargeForFloat))
    else
      var job := PumpJob(v, s, Job(pin, volume as real), lag);
      Step(job.state, if job.result.Err? then Some(job.result.fault) else None)
  }

  /** Starting dropdown option `i` with a volume `int()` accepts: option
      `k - 1` pulses relay `k` alone, LOW then HIGH, sends nothing and fails
      exactly when its job does; the last option runs the all-motors job. A
      volume too large for a float touches no pump. */
  lemma StartButtonOption(v: Variant, s: State, i: nat, volumeText: string, lags: seq<NonNeg>)
    requires SetUp(v, s)
    requires i <= |RelayPins(v)|
    requires ParseInt(volumeText).Some?
    ensures var r := StartButton(v, s, MotorOptions(|RelayPins(v)|)[i], volumeText, lags);
            var volume := ParseInt(volumeText).value;
            if !FitsFloat(volume) then
              && r.state.writes == s.writes && r.state.levels == s.levels
              && r.state.starts == s.starts && r.state.ends == s.ends && r.state.now == s.now
              && r.state.sent == s.sent + (if i == |RelayPins(v)| && v.RemovedFlag? && Linked(v) then [Complete] else [])
              && r.fault == (if i == |RelayPins(v)| then None else Some(TooLargeForFloat))
            else if i == |RelayPins(v)| then
              r == Step(StartAllMotors(v, s, volume as real, lags), None)
            else
              && r.state.writes == s.writes + [Write(RelayPins(v)[i], Low), Write(RelayPins(v)[i], High)]
              && r.state.sent == s.sent
              && (r.fault.Some? <==> JobRaises(v, volume as real, s.now - s.booted))
  {
    DispatchOption(v, i, volumeText);
  }

  /** The operator's actions: the order button, the Start button, and the
      STOP PUMPS, LED Waiting and LED Off buttons. Each action that runs
      pumps carries the clock lags of its jobs. */
  datatype Action =
    | Order(recipe: string, lags: seq<NonNeg>)
    | Start(selection: string, volumeText: string, lags: seq<NonNeg>)
    | Stop
    | LedWaiting
    | LedOff

  /** The stop and LED buttons exist only in the variant with the flag. */
  predicate Offered(v: Variant, a: Action) {
    a.Order? || a.Start? || v.RemovedFlag?
  }

  /** One operator action, run to completion. */
  function Apply(v: Variant, recipes: map<string, seq<Ingredient>>, s: State, a: Action): (r: State)
    requires Offered(v, a)
    requires SetUp(v, s)
    ensures SetUp(v, r)
    ensures s.sent <= r.sent
    ensures a.Stop? ==> !r.running
  {
    match a
    case Order(name, lags) =>
      MakeCocktailSends(v, recipes, s, name, lags);
      MakeCocktail(v, recipes, s, name, lags).state
    case Start(selection, volumeText, lags) => StartButton(v, s, selection, volumeText, lags).state
    case Stop => StopPumps(v, s)
    case LedWaiting => Notify(v, s, Waiting)
    case LedOff => Notify(v, s, Finished)
  }

  /** A session: the script starts, then the operator's actions run one
      after another. */
  function Session(v: Variant, recipes: map<string, seq<Ingredient>>, clock: real, uptime: NonNeg,
                   actions: seq<Action>): (r: State)
    requires forall k :: 0 <= k < |actions| ==> Offered(v, actions[k])
    ensures SetUp(v, r)
  {
    if actions == [] then Boot(v, clock, uptime)
    else Apply(v, recipes, Session(v, recipes, clock, uptime, actions[..|actions| - 1]), actions[|actions| - 1])
  }

  /** The Start button keeps the invariant and leaves every relay off. */
  lemma StartButtonKeepsSafe(v: Variant, s: State, selection: string, volumeText: string,
                             lags: seq<NonNeg>)
    requires Valid(v, s) && AllOff(s)
    ensures var r := StartButton(v, s, selection, volumeText, lags).state;
            Valid(v, r) && AllOff(r) && s.now <= r.now
  {
    match Dispatch(v, selection, volumeText)
    case Err(_) =>
    case Ok(AllMotors(volume)) => StartAllKeepsSafe(v, s, volume, lags);
    case Ok(OneMotor(pin, volume)) => StartOneKeepsSafe(v, s, pin, volume, FirstLag(lags));
  }

  lemma StartAllKeepsSafe(v: Variant, s: State, volume: int, lags: seq<NonNeg>)
    requires Valid(v, s) && AllOff(s)
    ensures var r := StartAll(v, s, volume, lags);
            Valid(v, r) && AllOff(r) && s.now <= r.now
  {
    if FitsFloat(volume) {
      StartAllMotorsKeepsValid(v, s, volume as real, lags);
      StartAllMotorsTurnsOff(v, s, volume as real, lags);
    }
  }

  lemma StartOneKeepsSafe(v: Variant, s: State, pin: Pin, volume: int, lag: NonNeg)
    requires Valid(v, s) && AllOff(s) && pin in s.levels
    ensures var r := StartOne(v, s, pin, volume, lag).state;
            Valid(v, r) && AllOff(r) && s.now <= r.now
  {
    if FitsFloat(volume) {
      PumpJobKeepsValid(v, s, Job(pin, volume as real), lag);
    }
  }

  /** Every action keeps the invariant and leaves every relay off once it
      has finished. */
  lemma ApplyKeepsSafe(v: Variant, recipes: map<string, seq<Ingredient>>, s: State, a: Action)
    requires Offered(v, a)
    requires Valid(v, s) && AllOff(s)
    ensures Valid(v, Apply(v, recipes, s, a)) && AllOff(Apply(v, recipes, s, a))
    ensures s.now <= Apply(v, recipes, s, a).now
  {
    match a
    case Order(name, lags) =>
      MakeCocktailKeepsValid(v, recipes, s, name, lags);
      assert Apply(v, recipes, s, a) == MakeCocktail(v, recipes, s, name, lags).state;
    case Start(selection, volumeText, lags) =>
      StartButtonKeepsSafe(v, s, selection, volumeText, lags);
    case Stop =>
    case LedWaiting =>
    case LedOff =>
  }

  /** Whatever the operator does, between actions every relay is off, the
      levels are what the writes left, each timed pin's run ends no earlier
      than it starts, and the serial log only grows. */
  lemma {:induction false} SessionSafe(v: Variant, recipes: map<string, seq<Ingredient>>, clock: real,
                                       uptime: NonNeg, actions: seq<Action>)
    requires forall k :: 0 <= k < |actions| ==> Offered(v, actions[k])
    ensures Valid(v, Session(v, recipes, clock, uptime, actions))
    ensures AllOff(Session(v, recipes, clock, uptime, actions))
    ensures clock <= Session(v, recipes, clock, uptime, actions).now
    ensures Boot(v, clock, uptime).sent <= Session(v, recipes, clock, uptime, actions).sent
  {
    if actions != [] {
      var before := actions[..|actions| - 1];
      SessionSafe(v, recipes, clock, uptime, before);
      ApplyKeepsSafe(v, recipes, Session(v, recipes, clock, uptime, before), actions[|actions| - 1]);
    }
  }
}
