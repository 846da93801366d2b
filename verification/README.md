# Cocktail bartender robot — a Dafny model of its dispensing core

The robot is a Raspberry Pi with a relay board. Each relay drives a peristaltic
pump, and an optional Arduino on a serial port animates an LED strip. Two
near-identical scripts drive it:

- `removedFlag.py` has eleven relays. It keeps working when the Arduino is
  absent, keeps a `pump_running` flag and has STOP PUMPS and LED buttons.
- `serial_cbrMain.py` has ten relays and requires the serial port. Its
  `start_pump` sleeps inside a `try`/`finally` and returns the elapsed time.

Around the GUI sits a small sequential core, which this project models in one
description parameterised by `Variant = RemovedFlag(linked) | SerialMain`:

- **Relays** (`relays.dfy`): the relay pin lists, `motor_mapping` (motor `k`
  is the relay at position `k - 1`), the KeyError lookup and `list.index`.
- **Text** (`text.dfy`): the two pieces of Python string handling the Start
  button relies on. The first is `str.split()` with no separator, which
  splits on the full `str.isspace` set. The second is base-10 `int()`. It
  skips surrounding whitespace, which excludes the four separator characters
  U+001C–U+001F that `str.isspace` counts. It accepts a sign and single
  underscores between digits. It refuses more than 4300 digits, and `str()`
  refuses to print them. That is the default in CPython 3.11 and later and
  in the 2022 security releases 3.7.14, 3.8.14, 3.9.14 and 3.10.7.
- **Selector** (`selector.dfy`): the dropdown's options `"Motor 1"` …
  `"Motor N"`, `"All Motors"`, and what the Start button asks for given the
  selection and the volume text. Every exception raised while reading them
  is an `Err`.
- **Plans** (`plans.dfy`): the `(pin, volume)` list a recipe turns into, its
  stable ascending sort by volume, and the one-job-per-relay plan of
  `start_all_motors`.
- **Notifications** (`notifications.dfy`): the four-entry start-code table
  and `send_command_to_arduino`, which writes nothing in `removedFlag.py`
  when the port did not open.
- **Machine** (`machine.dfy`): the run-time state and its transitions. It
  also holds the invariant that survives any sequence of operator actions.
  The state holds:
  - a level per GPIO pin and the list of every write made;
  - `pump_start_times` and `pump_end_times`;
  - the serial command log;
  - `pump_running`;
  - a clock, and the clock's reading when the machine booted.

Hardware and environment become plain data:

- **Relays:** active-low, so `High` is off.
- **Threads:** the "start one thread per pair, then join them all" group
  runs its jobs one after another, in plan order.
- **Clock:** it only moves forward. Each job may add a non-negative lag to
  the time it waits (the `lags` parameters). This stands for scheduling and
  for the busy-wait's overshoot. The monotonic clock that `time.sleep` waits
  on reads the machine's uptime: the clock minus its reading at boot. Start-up
  takes the uptime as a parameter.
- **Outcomes:** `outcomes.dfy` holds the `Option`/`Result` types and the
  faults:
  - KeyError on a motor or recipe;
  - IndexError on an empty selection;
  - ValueError from `int()`;
  - the serial variant's failure reading an unbound `end_time`;
  - OverflowError converting a huge integer volume to a float.

Where the code and its documentation disagree, the model follows the code:

- The volume is never validated. A negative volume is simply a negative run
  time:
  - in `removedFlag.py` the busy-wait ends at once;
  - in `serial_cbrMain.py`, `time.sleep` raises ValueError. The `finally`
    block still turns the pin off, then fails reading `end_time`. Nothing is
    recorded, and that second exception replaces the ValueError.
- `time.sleep` also raises for a run time that is too long:
  - with OverflowError when its nanosecond count does not fit a signed 64-bit
    integer, about 9.2e9 seconds (1.4e10 mL);
  - with OSError when the count fits but the deadline it sleeps until does
    not. The deadline is the monotonic clock plus the run time, so this band
    begins the machine's uptime below that limit.

  In both cases the serial variant ends as it does for a negative volume.
- An integer volume of 2^1024 - 2^970 or more in magnitude cannot become a
  float, so `volume / flow_rate` raises OverflowError before any pin is
  touched:
  - for one motor, the Start button fails and nothing changes;
  - for "All Motors", every pump thread dies that way. `start_all_motors`
    still joins them, and `removedFlag.py` then sends COMPLETE.
- `make_cocktail` sets `pump_running` and sends the recipe's start code
  before it looks the recipe up. An unknown recipe, or an ingredient on an
  unmapped motor, therefore raises KeyError with the start code already
  sent, the flag still set and no pump touched.
- `motor_mutex` is declared but never acquired, so there is nothing to model.
- `pump_running` is never initialised before its first assignment. The model
  starts it false; nothing reads it.
- STOP PUMPS cannot interrupt a running group. Every button runs on the Tk
  callback thread, and `join` blocks that thread until the group ends, so no
  other button is handled meanwhile. Running each action to completion before
  the next is therefore faithful.

## Model

| member | source | states |
|---|---|---|
| Relays.RelayPins | removedFlag.py:19 | eleven relays in the tolerant variant and ten in the other, none listed twice |
| Relays.SerialPinsPrefix | serial_cbrMain.py:17 | the serial variant's relays are the first ten of the tolerant variant's, in the same order |
| Relays.MotorMapping | removedFlag.py:38 | the mapping's keys are exactly 1..N and motor `k` maps to the relay at position `k - 1` |
| Relays.MotorLookup | removedFlag.py:265 | `motor_mapping[k]` succeeds exactly when `k` is a key and gives its relay; otherwise KeyError on `k` (partner: Selector.DispatchUnknownMotor) |
| Relays.MappingInjective | removedFlag.py:38 | with distinct pins no two motor numbers share a relay |
| Relays.MappingCoversPins | serial_cbrMain.py:36 | the mapping's values are exactly the relay pins |
| Relays.IndexOf | removedFlag.py:94 | `list.index` finds the first position holding the pin, and fails exactly when the pin is absent |
| Relays.MotorNumberRoundTrip | serial_cbrMain.py:71 | the motor number printed from `relay_pins.index(pin) + 1` is the number the pin was looked up under |
| Text.Trim | removedFlag.py:265 | what `int()` reads is a slice of the text with only `int()` whitespace outside it and none at its ends (partners: Text.TrimKeeps, Text.TrimUntrimmed) |
| Text.TrimKeeps | removedFlag.py:265 | every character that is not `int()` whitespace survives the trimming |
| Text.TrimUntrimmed | removedFlag.py:265 | text with no `int()` whitespace at either end is read whole |
| Text.Split | removedFlag.py:265 | `split()` yields only non-empty words free of whitespace (partners: Text.SplitYieldsWords, Text.SplitLast, Text.SplitJoin) |
| Text.SplitYieldsWords | removedFlag.py:265 | `split()` yields no word exactly when the text is all whitespace |
| Text.SplitLast | removedFlag.py:265 | the last word `split()` yields is a word of the text that starts it or follows whitespace, with only whitespace after it |
| Text.LastWord | removedFlag.py:265 | `split()[-1]` fails with IndexError exactly on all-whitespace text; otherwise it is a word that ends the text, up to trailing whitespace |
| Text.SplitJoin | removedFlag.py:251 | splitting words joined by single blanks gives the words back |
| Text.NatToString | removedFlag.py:251 | the numeral in a label is all digits and has no leading zero |
| Text.ParseInt | removedFlag.py:265 | `int()` reads a number only from text whose trimmed form ends in a digit, and the number's sign is the sign written (partners: Text.ParseIntToString, Text.ParseRejectsStray, Text.ParsePadded) |
| Text.ParseNatToString | serial_cbrMain.py:220 | `int(str(n))` is `n` for every natural `n` of at most 4300 digits, and ValueError beyond |
| Text.ParseIntToString | serial_cbrMain.py:220 | `int(str(i))` is `i` for every integer of at most 4300 digits, negative ones included, and ValueError beyond |
| Text.TrimPadded | removedFlag.py:265 | adding whitespace `int()` skips around text with no such whitespace at its ends leaves what `int()` reads unchanged |
| Text.ParsePadded | removedFlag.py:265 | `int()` reads padded text exactly as it reads the text alone |
| Text.ParsePlusSign | removedFlag.py:265 | a `+` in front of a digit body changes nothing `int()` reads |
| Text.ParseUnderscores | removedFlag.py:265 | a digit body with underscores reads as its digits alone |
| Text.ParseRejectsStray | serial_cbrMain.py:220 | `int()` raises on text holding a character that is not `int()` whitespace, digit, underscore or sign |
| Selector.MotorOptions | removedFlag.py:251 | the options are exactly `"Motor 1"` … `"Motor N"`, one per relay, then "All Motors"; the last word of option `i` is the numeral of `i + 1` (partner: Selector.DispatchOption) |
| Selector.Dispatch | removedFlag.py:265 | "All Motors" takes the all-motors path exactly when the volume parses. Any other selection yields a relay pin. An all-whitespace selection fails with IndexError. A returned volume is what `int()` gives |
| Selector.LastWordOfMotorLabel | removedFlag.py:251 | the last word of `"Motor k"` is the numeral of `k` |
| Selector.DispatchOption | removedFlag.py:251-265 | option `k` targets `relay_pins[k-1]` and the last option the all-motors path, for any volume `int()` accepts; a bad volume fails with ValueError |
| Selector.OptionsTargetDistinctRelays | serial_cbrMain.py:208-220 | two different motor options never start the same request |
| Selector.DispatchUnknownMotor | serial_cbrMain.py:220 | a label numbering no motor fails with KeyError on that number, before the volume is read; a numeral over 4300 digits fails with ValueError instead |
| Plans.RunTime | removedFlag.py:81 | pumping for the run time at the flow rate dispenses exactly the volume, and the run time is negative exactly when the volume is (partner: Plans.SortedByRunTime) |
| Plans.BuildPlan | removedFlag.py:179 | one `(mapped pin, quantity)` pair per ingredient, in ingredient order; KeyError exactly when some motor is unmapped, carrying the first unmapped one |
| Plans.SortByVolume | removedFlag.py:182 | the result is ascending by volume, a permutation of the input, and keeps the order of the jobs of each volume (stable) |
| Plans.StableOrderUnique | removedFlag.py:182 | two plans that are ascending and agree on the order of every volume's jobs are equal |
| Plans.AnyStableSortAgrees | serial_cbrMain.py:152 | any stable ascending sort of the plan, `list.sort` included, gives the same list as `SortByVolume` |
| Plans.SortedByRunTime | removedFlag.py:81 | a plan ascending by volume is ascending by run time `volume / flow_rate` |
| Plans.RecipePlan | serial_cbrMain.py:146-152 | a plan exists exactly when every motor is mapped. It is ascending, a stable permutation of the ingredient pairs and drives mapped pins only. Otherwise it is KeyError on the first unmapped motor |
| Plans.AllMotorsPlan | removedFlag.py:104-109 | one job per relay, in `relay_pins` order, each with the requested volume (partner: Plans.AllMotorsPlanCovers) |
| Plans.AllMotorsPlanCovers | removedFlag.py:104-109 | the all-motors plan has one job per relay, names every relay exactly once and gives each the same volume |
| Notifications.StartCode | removedFlag.py:164-171 | exactly the four named recipes have a start code, the one in the table, and none equals COMPLETE, WAITING or FINISHED |
| Notifications.Send | removedFlag.py:66-71 | a send appends the command with a link and writes nothing without one; the log only grows |
| Machine.Output | removedFlag.py:82 | one GPIO write sets that pin's level and is appended to the write list; levels still replay the writes, and telemetry, log, flag and clock are untouched |
| Machine.OutputAll | removedFlag.py:209 | each listed pin gets the level, in list order, and nothing else changes |
| Machine.Notify | removedFlag.py:66-71 | the command joins the log only over a link, and nothing but the log changes |
| Machine.Boot | removedFlag.py:22-27 | start-up drives every relay HIGH in list order and the state invariant holds. Telemetry is empty. WAITING is sent only by the tolerant variant with a link. The clock starts at the given time, with the given uptime |
| Machine.Pulse | removedFlag.py:82-90 | a pump run writes LOW then HIGH to its pin, which ends HIGH; levels still replay the writes and nothing else changes |
| Machine.TimedRun | removedFlag.py:80-93 | a completed job writes LOW then HIGH to its pin, records only that pin's start and end, and lasts at least its run time |
| Machine.PumpJob | serial_cbrMain.py:56-72 | the pin ends HIGH after LOW, in both variants. The job fails exactly when the sleeping variant's sleep raises, and then records nothing. That happens for a negative time, for one past 2^63 - 1 nanoseconds, or for one that passes that bound once added to the uptime. Otherwise it overwrites only its own pin's start and end, with end - start ≥ run time, and the sleeping variant returns that same elapsed time |
| Machine.PumpJobKeepsValid | removedFlag.py:80-93 | a pump job keeps levels equal to the replayed writes, the set-up pins unchanged, and every recorded run ordered and in the past |
| Machine.PlanWrites | removedFlag.py:188-195 | a plan makes two writes per job, LOW then HIGH on that job's pin, in plan order |
| Machine.PlanWritesOnlyPlanPins | serial_cbrMain.py:159-166 | every write a plan makes is to a pin the plan names |
| Machine.RunPlan | removedFlag.py:184-195 | running the group makes exactly the plan's writes, leaves the set-up pins, log and flag alone, and does not move the clock back |
| Machine.RunPlanLevels | serial_cbrMain.py:159-166 | after the group every pin it names is HIGH and every other pin keeps its level |
| Machine.RunPlanKeepsValid | removedFlag.py:188-195 | the group keeps the state invariant |
| Machine.RunPlanLeavesOthers | removedFlag.py:92-93 | a pin the plan does not name keeps its start and end entries |
| Machine.RunPlanRecordsLast | serial_cbrMain.py:69-70 | a pin's telemetry after the group is that of the last job on it, provided that job's sleep does not raise at the uptime the job starts at. In the model's one-after-another order it started when the jobs before it had finished and ended when it did, so it began during the group and lasted at least its run time |
| Machine.StartAllMotors | removedFlag.py:97-122 | every relay is pulsed in list order; COMPLETE follows only in the tolerant variant with a link |
| Machine.StartAllMotorsRunsPlan | serial_cbrMain.py:75-94 | `start_all_motors` differs from running the all-motors plan only in the serial log |
| Machine.StartAllMotorsTurnsOff | removedFlag.py:106-113 | afterwards every relay is HIGH and no other pin changed |
| Machine.StartAllMotorsKeepsValid | serial_cbrMain.py:81-88 | `start_all_motors` keeps the invariant and the clock monotone |
| Machine.AllMotorsJobRecorded | removedFlag.py:106-109 | each relay's job is the last on its pin, so, unless its sleep raises at the uptime it starts at, its own run stays on record. It began during the group and lasted at least the run time; its exact start and end are those of the model's one-after-another order |
| Machine.AllMotorsJobsRecorded | removedFlag.py:106-113 | after the all-motors group over distinct pins, when no job's sleep raises at the uptime it starts at, every pin has a run on record that started during the group and lasted at least the run time |
| Machine.StartAllMotorsRecords | serial_cbrMain.py:81-88 | afterwards every relay has a run on record that started during this call and lasted at least the run time, unless the sleeping variant's sleep raises for some job at the uptime it starts at |
| Machine.RecipePlanPinsNamed | removedFlag.py:179 | every job of a recipe plan drives the pin of one of the recipe's own ingredients |
| Machine.Announce | removedFlag.py:160-171 | the flag is set and the recipe's start code, if any, is sent; no pin, telemetry or clock changes |
| Machine.CocktailPlan | serial_cbrMain.py:146-152 | the recipe's plan only drives relay pins, and its only failure is a missing motor |
| Machine.MakeCocktail | removedFlag.py:158-204 | KeyError on the recipe exactly when it is absent; success exactly when it exists and every motor is mapped. A successful order runs the recipe's sorted plan, one job per ingredient at its quantity (Plans.RecipePlan), then sends COMPLETE. In the tolerant variant the flag ends set exactly when the order failed; the other variant leaves it alone. The set-up pins are unchanged (partners: Machine.MakeCocktailRecords, Machine.MakeCocktailSends) |
| Machine.MakeCocktailRecords | removedFlag.py:184-195 | after a completed order, the last job of the recipe's plan on each pin is on record: it began during the order and lasted at least its run time, unless the sleeping variant's sleep raised for it at the uptime it started at |
| Machine.Pour | removedFlag.py:188-204 | after the group COMPLETE is sent over a link and the flag is cleared, and nothing else differs from running the plan |
| Machine.MakeCocktailSends | serial_cbrMain.py:134-173 | the log gains the start code, if any, then COMPLETE only on success, and nothing at all without a link |
| Machine.MakeCocktailFailsEarly | removedFlag.py:176-179 | a failed order has touched no pin, telemetry entry or clock |
| Machine.MakeCocktailDrivesNamedPins | serial_cbrMain.py:159-162 | every GPIO write of a successful order is to a pin of one of the recipe's ingredients, two per ingredient |
| Machine.MakeCocktailKeepsValid | serial_cbrMain.py:129-173 | an order keeps the invariant, leaves all relays off if they were, and does not move the clock back |
| Machine.PourKeepsValid | removedFlag.py:188-204 | the group, COMPLETE and clearing the flag keep the invariant and leave every relay off if they were |
| Machine.StopPumps | removedFlag.py:207-211 | every relay HIGH, the flag false, telemetry, log and clock untouched, the invariant kept |
| Machine.StopPumpsIdempotent | removedFlag.py:207-211 | stopping twice is observably the same as stopping once |
| Machine.StartButton | serial_cbrMain.py:220 | a selection or volume that fails changes nothing; a volume too large for a float pulses nothing, fails for one motor and lets "All Motors" finish, sending only its COMPLETE; otherwise at least one pump is pulsed; the log only grows and the set-up pins are unchanged |
| Machine.StartButtonOption | removedFlag.py:251-265 | option `k` pulses relay `k` alone and sends nothing, failing exactly when the sleeping variant's sleep raises at the current uptime. The last option runs `start_all_motors`. A volume too large for a float pulses nothing, fails for one motor, and for "All Motors" sends only COMPLETE over the tolerant variant's link |
| Machine.Apply | removedFlag.py:265-286 | every button keeps the log growing and the relays set up; STOP PUMPS clears the flag |
| Machine.Session | removedFlag.py:22-27 | the relays are set up from start-up on, whatever the operator does |
| Machine.StartButtonKeepsSafe | removedFlag.py:265 | the Start button keeps the invariant, leaves all relays off and does not move the clock back |
| Machine.ApplyKeepsSafe | removedFlag.py:265-286 | every button keeps the invariant and leaves all relays off |
| Machine.SessionSafe | removedFlag.py:25-27 | after start-up and any sequence of button presses every relay is off, levels match the writes, every recorded run is ordered and in the past, the clock has not gone back, and the serial log still begins with what start-up sent |

## Left out

- The tkinter GUI: windows, labels, images and the recipe buttons. The dropdown selection and the volume text are inputs to `Selector.Dispatch`.
- Loading recipe images (local files, `requests`, PIL): I/O with no effect on dispensing.
- Loading the recipes from JSON: the model takes them as a `map<string, seq<Ingredient>>`.
- A recipe entry without an `ingredients` list, or an ingredient without `motor` or `quantity`: the JSON layout is taken as given, so those KeyErrors cannot arise in the model.
- Real GPIO and serial I/O: these become the per-pin level map, the write list and the command log.
- Threads, `join` and `motor_mutex`: the jobs of a group run one after another in plan order. Interleavings, and real overlap of pump runs, are not modelled. The mutex is never acquired.
- A recipe that lists one motor twice: in the program both threads drive the same relay at once. The shorter one writes HIGH while the longer one is still timing, so the longer pour is cut short. The model gives each job its full run.
- Start times: in the program every job of a group starts at about the same moment. In the model a job starts when the jobs before it in plan order have finished. The exact times that Machine.RunPlanRecordsLast and Machine.AllMotorsJobRecorded state are those of this one-after-another order.
- Wall-clock time, the busy-wait and `time.sleep`: they become a clock plus a non-negative per-job lag. `cocktail_start_time`, `end_time` and `total_time` are only printed, so they are left out.
- Floating-point arithmetic: volumes and times are exact reals; recipe quantities are reals, Start-button volumes integers. The float limits the model does keep are compared exactly, so rounding right at those boundaries is not modelled. They are the 2^63 - 1 nanoseconds `time.sleep` accepts, alone or added to the uptime, and the largest integer a float can hold.
- The monotonic clock is the model's clock minus its reading at boot: a suspended machine or a stepped wall clock, which make the two drift apart, is not modelled. In the program every job of a group starts its sleep at about the same uptime. In the model each job sees the uptime its clock has reached after the jobs before it.
- `time.sleep`'s OSError band follows CPython 3.11 and later on Linux, which sleep with `clock_nanosleep` until an absolute deadline. Earlier releases and other platforms wait with a relative timeout, so their limits differ; the model does not follow them.
- Recipe quantities too large for a float: a JSON integer quantity that big would kill its pump thread with OverflowError, but the model reads quantities as reals.
- The model fixes the digit limit of `int()` and `str()` at 4300. That is the default of CPython 3.11 and later and of the 2022 security releases 3.7.14, 3.8.14, 3.9.14 and 3.10.7. Releases before those have no limit, and `sys.set_int_max_str_digits` or the `PYTHONINTMAXSTRDIGITS` environment variable can change it.
- The `KeyboardInterrupt` path of `start_pump` in `serial_cbrMain.py`: a user interrupt is outside the model.
- Printing, including the minutes/seconds formatting.
- `serial_cbrMain.py` failing at start-up when the serial port cannot be opened: a running instance of that variant always has the link.
- Unicode decimal digits other than `0`-`9`, which Python's `int()` also accepts: the model's `int()` takes ASCII digits only.
- Machine.PumpJob: requires its pin to have been set up as an output. RPi.GPIO raises on any other pin, and every caller passes a relay pin, all of which are set up at start-up.
- Machine.StopPumps: requires the tolerant variant, the only one with a STOP PUMPS button.
