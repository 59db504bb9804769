/** Plants: the watering sequence of one plant, the parsing of a plant entry,
    and the lazy collection that resolves the entries of the configuration.

    Each actuation and each sleep is an event appended to a trace. Any step
    of a watering may raise; which ones do is a parameter (`faults`), so the
    model covers every way a watering can end.
 */
module Plant {
  import opened Outcome
  import opened Relay
  import opened WaterLevel

  /** A field of a plant entry: a JSON string, any other JSON value, or a
      relay written back into the entry during resolution. */
  datatype Value = Text(s: string) | NonText | Device(relay: Relay)

  /** One element of the configuration's `plants` list. */
  type Entry = map<string, Value>

  /** The configuration document; `plants` is `None` when the key is absent. */
  datatype Config = Config(devices: DeviceTables, plants: Option<seq<Entry>>)

  /** A plant: its name, valve relay, `water_level` field and pump relay. */
  datatype Plant = Plant(name: Value, valve: Relay, waterLevel: Value, pump: Relay)

  /** A plant built by resolution: the valve is a solenoid valve and the pump
      a pump, so the two relays are distinct. */
  predicate WellFormed(p: Plant) {
    p.valve.kind == SolenoidValve && p.pump.kind == Pump
  }

  /** The steps of a watering, in program order: four in the protected body,
      two in the cleanup. */
  datatype Step = ValveOn | Settle | PumpOn | Run | PumpOff | ValveOff

  /** Everything the core can raise. */
  datatype Error =
    | NoPlants                      // the configuration has no `plants` key
    | MissingField(field: string)   // an entry lacks a field that is indexed
    | DeviceIdNotAKey(field: string) // a device field that no table can hold as a key
    | Lookup(cause: RelayError)     // device resolution failed
    | WaterLevelNotText             // strptime refuses a `water_level` that is not a string
    | StepFailed(step: Step)        // an output call or a sleep raised
    | NotARelay(field: string)      // a plant field that should hold a resolved relay does not

  /** What the controller does to the outside world. */
  datatype Event = Actuate(cmd: Command) | Wait(seconds: nat)

  /** A trace of events and how the call that produced it ended. */
  datatype Watering = Watering(trace: seq<Event>, status: Status<Error>)

  /** The duration the plant's `water_level` gives: strptime raises a
      TypeError on anything but a string. */
  function WaterTime(v: Value): (d: Option<nat>)
    ensures d.Some? <==> v.Text?
    ensures d.Some? ==> d.value == GetWaterTime(v.s)
  {
    match v
    case Text(s) => Some(GetWaterTime(s))
    case _ => None
  }

  // ---------------------------------------------------------------- watering

  /** One step of the sequence and what it does when it is not made to
      fail: emit an event, or raise on its own account. */
  datatype Action = Action(step: Step, effect: Result<Event, Error>)

  /** The protected body: valve on, settle for one second, pump on, then
      sleep for the watering time (whose computation may itself raise). */
  function Body(p: Plant): seq<Action> {
    [ Action(ValveOn, Ok(Actuate(On(p.valve)))),
      Action(Settle, Ok(Wait(1))),
      Action(PumpOn, Ok(Actuate(On(p.pump)))),
      Action(Run, match WaterTime(p.waterLevel)
                  case Some(d) => Ok(Wait(d))
                  case None => Err(WaterLevelNotText)) ]
  }

  /** The cleanup, run whatever the body did: pump off, then valve off. */
  function Cleanup(p: Plant): seq<Action> {
    [ Action(PumpOff, Ok(Actuate(Off(p.pump)))),
      Action(ValveOff, Ok(Actuate(Off(p.valve)))) ]
  }

  /** The error `a` raises under `faults`, if any: its own error is raised
      before the step's call is made, and a faulty call raises StepFailed. */
  function Raises(a: Action, faults: set<Step>): Option<Error> {
    match a.effect
    case Err(e) => Some(e)
    case Ok(_) => if a.step in faults then Some(StepFailed(a.step)) else None
  }

  /** Runs `actions` in order until one raises: the trace holds the events
      of exactly the steps that completed, and the status is the first
      exception. */
  function RunActions(actions: seq<Action>, faults: set<Step>): (w: Watering)
    ensures |w.trace| <= |actions|
    ensures forall i :: 0 <= i < |w.trace| ==>
              Raises(actions[i], faults).None? && actions[i].effect == Ok(w.trace[i])
    ensures w.status.Done? <==> |w.trace| == |actions|
    ensures w.status.Raised? ==> Raises(actions[|w.trace|], faults) == Some(w.status.error)
  {
    if |actions| == 0 then Watering([], Done)
    else match Raises(actions[0], faults)
      case Some(e) => Watering([], Raised(e))
      case None =>
        var rest := RunActions(actions[1..], faults);
        Watering([actions[0].effect.value] + rest.trace, rest.status)
  }

  /** `water()`: the body inside try, the cleanup in finally. An exception
      from the cleanup replaces the body's; otherwise the body's exception,
      if any, propagates once the cleanup is done. */
  function Water(p: Plant, faults: set<Step>): Watering {
    var body := RunActions(Body(p), faults);
    var cleanup := RunActions(Cleanup(p), faults);
    Watering(body.trace + cleanup.trace,
             if cleanup.status.Raised? then cleanup.status else body.status)
  }

  /** Number of occurrences of `e` in `t`. */
  function Count(t: seq<Event>, e: Event): nat {
    if |t| == 0 then 0 else (if t[0] == e then 1 else 0) + Count(t[1..], e)
  }

  lemma {:induction false} CountAppend(a: seq<Event>, b: seq<Event>, e: Event)
    ensures Count(a + b, e) == Count(a, e) + Count(b, e)
  {
    if |a| == 0 {
      assert a + b == b;
    } else {
      assert (a + b)[1..] == a[1..] + b;
      CountAppend(a[1..], b, e);
    }
  }

  /** The body's trace is a prefix of valve on, one second, pump on, and a
      wait: how much of it appears depends on the first step that raises. */
  lemma BodyTrace(p: Plant, faults: set<Step>)
    ensures var t := RunActions(Body(p), faults).trace;
            && |t| <= 4
            && (|t| > 0 ==> t[0] == Actuate(On(p.valve)))
            && (|t| > 1 ==> t[1] == Wait(1))
            && (|t| > 2 ==> t[2] == Actuate(On(p.pump)))
            && (|t| > 3 ==> t[3].Wait?)
  {
    var t := RunActions(Body(p), faults).trace;
    var b := Body(p);
    assert forall i :: 0 <= i < |t| ==> b[i].effect == Ok(t[i]);
  }

  /** The cleanup's trace is a prefix of pump off, valve off. */
  lemma CleanupTrace(p: Plant, faults: set<Step>)
    ensures var t := RunActions(Cleanup(p), faults).trace;
            && |t| <= 2
            && (|t| > 0 ==> t[0] == Actuate(Off(p.pump)))
            && (|t| > 1 ==> t[1] == Actuate(Off(p.valve)))
    ensures PumpOff !in faults && ValveOff !in faults ==>
              RunActions(Cleanup(p), faults) == Watering([Actuate(Off(p.pump)), Actuate(Off(p.valve))], Done)
    ensures PumpOff in faults ==>
              RunActions(Cleanup(p), faults) == Watering([], Raised(StepFailed(PumpOff)))
    ensures RunActions(Cleanup(p), faults).status.Done? <==> PumpOff !in faults && ValveOff !in faults
  {
    var t := RunActions(Cleanup(p), faults).trace;
    var c := Cleanup(p);
    assert forall i :: 0 <= i < |t| ==> c[i].effect == Ok(t[i]);
  }

  /** With no fault and a string `water_level`, a watering is exactly: valve
      on, one second, pump on, the watering time, pump off, valve off. */
  lemma WaterWithoutFaults(p: Plant)
    requires p.waterLevel.Text?
    ensures Water(p, {}) == Watering(
              [ Actuate(On(p.valve)), Wait(1), Actuate(On(p.pump)),
                Wait(GetWaterTime(p.waterLevel.s)),
                Actuate(Off(p.pump)), Actuate(Off(p.valve)) ],
              Done)
  {
  }

  /** Cleanup happens: unless a cleanup call itself fails, the trace ends
      with one pump-off followed by one valve-off, each issued exactly once,
      and the body's own outcome (its exception, if any) is what propagates. */
  lemma CleanupAlwaysRuns(p: Plant, faults: set<Step>)
    requires WellFormed(p)
    requires PumpOff !in faults && ValveOff !in faults
    ensures var w := Water(p, faults);
            && |w.trace| >= 2
            && w.trace[|w.trace| - 2..] == [Actuate(Off(p.pump)), Actuate(Off(p.valve))]
            && Count(w.trace, Actuate(Off(p.pump))) == 1
            && Count(w.trace, Actuate(Off(p.valve))) == 1
            && w.status == RunActions(Body(p), faults).status
  {
    var body := RunActions(Body(p), faults);
    var cleanup := RunActions(Cleanup(p), faults);
    BodyTrace(p, faults);
    CleanupTrace(p, faults);
    CountAppend(body.trace, cleanup.trace, Actuate(Off(p.pump)));
    CountAppend(body.trace, cleanup.trace, Actuate(Off(p.valve)));
    BodyIssuesNoOff(p, faults, body.trace);
    CountPair(Actuate(Off(p.pump)), Actuate(Off(p.valve)));
  }

  /** Each of two distinct events occurs once in the pair of them. */
  lemma CountPair(a: Event, b: Event)
    requires a != b
    ensures Count([a, b], a) == 1 && Count([a, b], b) == 1
  {
    assert [a, b][1..] == [b];
    assert [b][1..] == [];
    assert Count([b], a) == 0 && Count([b], b) == 1;
  }

  /** The body never switches anything off. */
  lemma BodyIssuesNoOff(p: Plant, faults: set<Step>, t: seq<Event>)
    requires t == RunActions(Body(p), faults).trace
    ensures Count(t, Actuate(Off(p.pump))) == 0
    ensures Count(t, Actuate(Off(p.valve))) == 0
  {
    var b := Body(p);
    assert forall i :: 0 <= i < |t| ==> b[i].effect == Ok(t[i]);
    assert forall i :: 0 <= i < |t| ==> t[i] != Actuate(Off(p.pump)) && t[i] != Actuate(Off(p.valve));
    NoOccurrence(t, Actuate(Off(p.pump)));
    NoOccurrence(t, Actuate(Off(p.valve)));
  }

  lemma {:induction false} NoOccurrence(t: seq<Event>, e: Event)
    requires forall i :: 0 <= i < |t| ==> t[i] != e
    ensures Count(t, e) == 0
  {
    if |t| > 0 {
      NoOccurrence(t[1..], e);
    }
  }

  /** If pump-off raises, valve-off is never issued and pump-off's exception
      is the one that propagates, masking any exception of the body. */
  lemma PumpOffFailureSkipsValveOff(p: Plant, faults: set<Step>)
    requires PumpOff in faults
    ensures Actuate(Off(p.valve)) !in Water(p, faults).trace
    ensures Water(p, faults).status == Raised(StepFailed(PumpOff))
  {
    var body := RunActions(Body(p), faults);
    var b := Body(p);
    assert forall i :: 0 <= i < |body.trace| ==> b[i].effect == Ok(body.trace[i]);
    assert RunActions(Cleanup(p), faults).trace == [];
  }

  /** A watering that completes had no failing cleanup call. */
  lemma CleanupMustSucceed(p: Plant, faults: set<Step>)
    requires Water(p, faults).status.Done?
    ensures PumpOff !in faults && ValveOff !in faults
  {
    CleanupTrace(p, faults);
  }

  /** The relays switched on, in trace order. */
  function SwitchedOn(t: seq<Event>): seq<Relay> {
    if |t| == 0 then []
    else SwitchedOn(t[..|t| - 1])
         + (if t[|t| - 1].Actuate? && Energised(t[|t| - 1].cmd.level) then [t[|t| - 1].cmd.relay] else [])
  }

  /** The relays switched off, in trace order. */
  function SwitchedOff(t: seq<Event>): seq<Relay> {
    if |t| == 0 then []
    else SwitchedOff(t[..|t| - 1])
         + (if t[|t| - 1].Actuate? && !Energised(t[|t| - 1].cmd.level) then [t[|t| - 1].cmd.relay] else [])
  }

  /** `a` is a prefix of `b`. */
  predicate IsPrefix<T(==)>(a: seq<T>, b: seq<T>) {
    |a| <= |b| && a == b[..|a|]
  }

  /** Startup and cleanup are mirror images: relays are switched on in the
      order valve, pump (or a prefix of it, when the body fails) and off in
      the reverse order pump, valve (or a prefix of it, when pump-off fails);
      with no fault, the cleanup order is exactly the reverse of the startup
      order. */
  lemma CleanupReversesStartup(p: Plant, faults: set<Step>)
    ensures IsPrefix(SwitchedOn(Water(p, faults).trace), [p.valve, p.pump])
    ensures IsPrefix(SwitchedOff(Water(p, faults).trace), [p.pump, p.valve])
    ensures faults == {} ==>
              SwitchedOff(Water(p, faults).trace) == [p.pump, p.valve]
              && SwitchedOn(Water(p, faults).trace) == [p.valve, p.pump]
  {
    var body := RunActions(Body(p), faults);
    var cleanup := RunActions(Cleanup(p), faults);
    SwitchedInBody(p, faults);
    SwitchedInCleanup(p, faults);
    SwitchedAppend(body.trace, cleanup.trace);
  }

  /** The body switches on the valve and then the pump, as far as it gets,
      and switches nothing off. */
  lemma SwitchedInBody(p: Plant, faults: set<Step>)
    ensures var t := RunActions(Body(p), faults).trace;
            && SwitchedOff(t) == []
            && IsPrefix(SwitchedOn(t), [p.valve, p.pump])
            && (faults == {} ==> SwitchedOn(t) == [p.valve, p.pump])
  {
    var t := RunActions(Body(p), faults).trace;
    if faults == {} {
      assert |t| >= 3 by {
        var b := Body(p);
        assert Raises(b[0], faults).None? && Raises(b[1], faults).None? && Raises(b[2], faults).None?;
      }
    }
    assert t[..|t|] == t;
    SwitchedInBodyPrefix(p, faults, |t|);
  }

  /** What the first `k` events of the body switch on and off. */
  lemma {:induction false} SwitchedInBodyPrefix(p: Plant, faults: set<Step>, k: nat)
    requires k <= |RunActions(Body(p), faults).trace|
    ensures var t := RunActions(Body(p), faults).trace;
            && SwitchedOff(t[..k]) == []
            && SwitchedOn(t[..k]) == [p.valve, p.pump][..if k >= 3 then 2 else if k >= 1 then 1 else 0]
  {
    var t := RunActions(Body(p), faults).trace;
    if k > 0 {
      BodyTrace(p, faults);
      SwitchedInBodyPrefix(p, faults, k - 1);
      assert t[..k][..k - 1] == t[..k - 1];
    }
  }

  /** The cleanup switches off the pump and then the valve, as far as it
      gets, and switches nothing on. */
  lemma SwitchedInCleanup(p: Plant, faults: set<Step>)
    ensures var t := RunActions(Cleanup(p), faults).trace;
            && SwitchedOn(t) == []
            && IsPrefix(SwitchedOff(t), [p.pump, p.valve])
            && (faults == {} ==> SwitchedOff(t) == [p.pump, p.valve])
  {
    var t := RunActions(Cleanup(p), faults).trace;
    CleanupTrace(p, faults);
    assert t[..|t|] == t;
    SwitchedInCleanupPrefix(p, faults, |t|);
  }

  /** What the first `k` events of the cleanup switch on and off. */
  lemma {:induction false} SwitchedInCleanupPrefix(p: Plant, faults: set<Step>, k: nat)
    requires k <= |RunActions(Cleanup(p), faults).trace|
    ensures var t := RunActions(Cleanup(p), faults).trace;
            && SwitchedOn(t[..k]) == []
            && SwitchedOff(t[..k]) == [p.pump, p.valve][..k]
  {
    var t := RunActions(Cleanup(p), faults).trace;
    if k > 0 {
      CleanupTrace(p, faults);
      SwitchedInCleanupPrefix(p, faults, k - 1);
      assert t[..k][..k - 1] == t[..k - 1];
    }
  }

  lemma {:induction false} SwitchedAppend(a: seq<Event>, b: seq<Event>)
    ensures SwitchedOn(a + b) == SwitchedOn(a) + SwitchedOn(b)
    ensures SwitchedOff(a + b) == SwitchedOff(a) + SwitchedOff(b)
    decreases |b|
  {
    if |b| == 0 {
      assert a + b == a;
    } else {
      assert (a + b)[..|a + b| - 1] == a + b[..|b| - 1];
      SwitchedAppend(a, b[..|b| - 1]);
    }
  }

  // ------------------------------------------------------------ relay state

  /** The level `r` was last driven to in `t`, if it was driven at all. */
  function LastLevel(t: seq<Event>, r: Relay): Option<Level> {
    if |t| == 0 then None
    else if t[|t| - 1].Actuate? && t[|t| - 1].cmd.relay == r then Some(t[|t| - 1].cmd.level)
    else LastLevel(t[..|t| - 1], r)
  }

  /** After `t`, the load of `r` is switched on. */
  predicate SwitchedOnAfter(t: seq<Event>, r: Relay) {
    LastLevel(t, r).Some? && Energised(LastLevel(t, r).value)
  }

  lemma {:induction false} LastLevelAppend(a: seq<Event>, b: seq<Event>, r: Relay)
    ensures LastLevel(a + b, r) == if LastLevel(b, r).Some? then LastLevel(b, r) else LastLevel(a, r)
    decreases |b|
  {
    if |b| == 0 {
      assert a + b == a;
    } else {
      assert (a + b)[..|a + b| - 1] == a + b[..|b| - 1];
      LastLevelAppend(a, b[..|b| - 1], r);
    }
  }

  /** The level of each relay after the first `k` events of the body. */
  lemma {:induction false} LevelsInBody(p: Plant, faults: set<Step>, k: nat)
    requires WellFormed(p)
    requires k <= |RunActions(Body(p), faults).trace|
    ensures var t := RunActions(Body(p), faults).trace;
            && LastLevel(t[..k], p.pump) == (if k >= 3 then Some(Low) else None)
            && LastLevel(t[..k], p.valve) == (if k >= 1 then Some(Low) else None)
  {
    var t := RunActions(Body(p), faults).trace;
    if k > 0 {
      BodyTrace(p, faults);
      LevelsInBody(p, faults, k - 1);
      assert t[..k][..k - 1] == t[..k - 1];
    }
  }

  /** The level of each relay after the first `k` events of the cleanup. */
  lemma {:induction false} LevelsInCleanup(p: Plant, faults: set<Step>, k: nat)
    requires WellFormed(p)
    requires k <= |RunActions(Cleanup(p), faults).trace|
    ensures var t := RunActions(Cleanup(p), faults).trace;
            && LastLevel(t[..k], p.pump) == (if k >= 1 then Some(High) else None)
            && LastLevel(t[..k], p.valve) == (if k >= 2 then Some(High) else None)
  {
    var t := RunActions(Cleanup(p), faults).trace;
    if k > 0 {
      CleanupTrace(p, faults);
      LevelsInCleanup(p, faults, k - 1);
      assert t[..k][..k - 1] == t[..k - 1];
    }
  }

  /** The pump never runs against a closed valve: at every point of a
      watering, if the pump is switched on then so is the valve. */
  lemma PumpRunsOnlyWithValveOpen(p: Plant, faults: set<Step>, k: nat)
    requires WellFormed(p)
    requires k <= |Water(p, faults).trace|
    ensures var t := Water(p, faults).trace[..k];
            SwitchedOnAfter(t, p.pump) ==> SwitchedOnAfter(t, p.valve)
  {
    var body := RunActions(Body(p), faults).trace;
    var cleanup := RunActions(Cleanup(p), faults).trace;
    var t := Water(p, faults).trace;
    assert t == body + cleanup;
    if k <= |body| {
      assert t[..k] == body[..k];
      LevelsInBody(p, faults, k);
    } else {
      var c := cleanup[..k - |body|];
      assert t[..k] == body + c;
      assert body[..|body|] == body;
      LevelsInBody(p, faults, |body|);
      LevelsInCleanup(p, faults, k - |body|);
      assert LastLevel(c, p.pump) == Some(High);
      LastLevelAppend(body, c, p.pump);
    }
  }

  /** Both loads are off when the watering returns or raises, unless a
      cleanup call is itself the one that fails. */
  lemma BothOffAfterWatering(p: Plant, faults: set<Step>)
    requires WellFormed(p)
    requires PumpOff !in faults && ValveOff !in faults
    ensures LastLevel(Water(p, faults).trace, p.pump) == Some(High)
    ensures LastLevel(Water(p, faults).trace, p.valve) == Some(High)
  {
    var body := RunActions(Body(p), faults).trace;
    var cleanup := RunActions(Cleanup(p), faults).trace;
    CleanupTrace(p, faults);
    assert cleanup[..2] == cleanup;
    LevelsInCleanup(p, faults, 2);
    LastLevelAppend(body, cleanup, p.pump);
    LastLevelAppend(body, cleanup, p.valve);
  }
  // ------------------------------------------------------- plant collection

  /** `Plant.parse_obj`: reads `name`, `valve`, `water_level` (substituting
      the default when it is absent) and `pump`, in that order. */
  function ParseObj(obj: Entry): (r: Result<Plant, Error>)
    ensures r.Ok? <==> "name" in obj && "valve" in obj && "pump" in obj
                       && obj["valve"].Device? && obj["pump"].Device?
    ensures r.Ok? ==> r.value.name == obj["name"]
                      && r.value.valve == obj["valve"].relay
                      && r.value.pump == obj["pump"].relay
    ensures r.Ok? && "water_level" in obj ==> r.value.waterLevel == obj["water_level"]
    ensures r.Ok? && "water_level" !in obj ==> r.value.waterLevel == Text(DefaultWaterLevel)
  {
    if "name" !in obj then Err(MissingField("name"))
    else if "valve" !in obj then Err(MissingField("valve"))
    else if !obj["valve"].Device? then Err(NotARelay("valve"))
    else if "pump" !in obj then Err(MissingField("pump"))
    else if !obj["pump"].Device? then Err(NotARelay("pump"))
    else
      var level := if "water_level" in obj then obj["water_level"] else Text(DefaultWaterLevel);
      Ok(Plant(obj["name"], obj["valve"].relay, level, obj["pump"].relay))
  }

  /** A plant entry without `water_level` is watered for ten seconds. */
  lemma MissingWaterLevelMeansTenSeconds(obj: Entry)
    requires ParseObj(obj).Ok? && "water_level" !in obj
    ensures WaterTime(ParseObj(obj).value.waterLevel) == Some(10)
  {
    WaterTimeExamples();
  }

  /** Resolves one device field of an entry through the class's table. */
  function ResolveField(t: DeviceTables, k: DeviceClass, e: Entry, field: string): (r: Result<Relay, Error>)
    ensures r.Ok? <==> field in e && e[field].Text? && DeviceType(k).Some?
                       && Resolvable(t, DeviceType(k).value, e[field].s)
    ensures r.Ok? ==> r.value == GetRelay(t, k, e[field].s).value
    ensures field !in e ==> r == Err(MissingField(field))
    ensures field in e && !e[field].Text? ==> r == Err(DeviceIdNotAKey(field))
  {
    if field !in e then Err(MissingField(field))
    else match e[field]
      case Text(id) =>
        (match GetRelay(t, k, id)
         case Ok(relay) => Ok(relay)
         case Err(cause) => Err(Lookup(cause)))
      case _ => Err(DeviceIdNotAKey(field))
  }
  /** What handling one entry leaves behind: the entry as rewritten in place,
      and the plant yielded or the exception raised. */
  datatype Resolution = Resolution(entry: Entry, plant: Result<Plant, Error>)

  /** An entry that resolves: both device ids are strings registered in
      their tables at valid positions of `relays`, and it has a name. */
  predicate EntryResolves(t: DeviceTables, e: Entry) {
    && "valve" in e && e["valve"].Text? && Resolvable(t, Valves, e["valve"].s)
    && "pump" in e && e["pump"].Text? && Resolvable(t, Pumps, e["pump"].s)
    && "name" in e
  }

  /** One step of the `Plants` iteration: resolve the valve and write it
      back into the entry, resolve the pump and write it back, then parse
      the entry. A failure stops the step with the writes made so far. */
  function ResolveEntry(t: DeviceTables, e: Entry): (r: Resolution)
    ensures r.entry.Keys == e.Keys
    ensures forall f :: f in e && f != "valve" && f != "pump" ==> r.entry[f] == e[f]
    ensures r.plant.Ok? <==> EntryResolves(t, e)
    ensures r.plant.Ok? ==>
              && WellFormed(r.plant.value)
              && r.plant.value.valve == GetRelay(t, SolenoidValve, e["valve"].s).value
              && r.plant.value.pump == GetRelay(t, Pump, e["pump"].s).value
              && r.plant.value.name == e["name"]
              && r.plant.value.waterLevel == (if "water_level" in e then e["water_level"] else Text(DefaultWaterLevel))
              && r.entry["valve"] == Device(r.plant.value.valve)
              && r.entry["pump"] == Device(r.plant.value.pump)
    ensures r.plant.Err? ==> !r.plant.error.NotARelay?
  {
    match ResolveField(t, SolenoidValve, e, "valve")
    case Err(err) => Resolution(e, Err(err))
    case Ok(valve) =>
      var e1 := e["valve" := Device(valve)];
      match ResolveField(t, Pump, e1, "pump")
      case Err(err) => Resolution(e1, Err(err))
      case Ok(pump) =>
        var e2 := e1["pump" := Device(pump)];
        Resolution(e2, ParseObj(e2))
  }

  /** The collection view built by the `Plants` constructor. */
  datatype Plants = Plants(devices: DeviceTables, entries: seq<Entry>)

  /** The `Plants` constructor: it fails exactly when the configuration has
      no `plants` key; an empty list is accepted. */
  function NewPlants(cfg: Config): (r: Result<Plants, Error>)
    ensures r.Err? <==> cfg.plants.None?
    ensures r.Err? ==> r.error == NoPlants
    ensures r.Ok? ==> r.value.devices == cfg.devices && r.value.entries == cfg.plants.value
  {
    match cfg.plants
    case None => Err(NoPlants)
    case Some(entries) => Ok(Plants(cfg.devices, entries))
  }

  /** A complete run of the iteration: the plants yielded, the entries as
      rewritten, and the exception that ended it early, if any. */
  datatype Iteration = Iteration(yielded: seq<Plant>, entries: seq<Entry>, stop: Option<Error>)

  /** Iterates `es` to the end or to the first entry that fails: one plant
      per entry in order, every entry before the failure rewritten, the
      failing entry rewritten as far as it got, and the rest untouched. */
  function Collect(t: DeviceTables, es: seq<Entry>): (it: Iteration)
    ensures |it.entries| == |es| && |it.yielded| <= |es|
    ensures it.stop.None? <==> |it.yielded| == |es|
    ensures forall i :: |it.yielded| < i < |es| ==> it.entries[i] == es[i]
  {
    if |es| == 0 then Iteration([], [], None)
    else
      var first := ResolveEntry(t, es[0]);
      match first.plant
      case Err(e) => Iteration([], [first.entry] + es[1..], Some(e))
      case Ok(p) =>
        var rest := Collect(t, es[1..]);
        var it := Iteration([p] + rest.yielded, [first.entry] + rest.entries, rest.stop);
        assert forall i :: 1 <= i < |es| ==> it.entries[i] == rest.entries[i - 1];
        it
  }

  /** Every plant yielded is the one its entry resolves to, in order, and
      that entry is left rewritten with the plant's relays. */
  lemma {:induction false} CollectYieldsResolvedPlants(t: DeviceTables, es: seq<Entry>, i: nat)
    requires i < |Collect(t, es).yielded|
    ensures var it := Collect(t, es);
            ResolveEntry(t, es[i]) == Resolution(it.entries[i], Ok(it.yielded[i]))
  {
    if i > 0 {
      CollectYieldsResolvedPlants(t, es[1..], i - 1);
      assert es[1..][i - 1] == es[i];
    }
  }

  /** An iteration that stops early stops at an entry that fails, with that
      entry's exception and that entry rewritten as far as it got. */
  lemma {:induction false} CollectStopsAtFailure(t: DeviceTables, es: seq<Entry>)
    requires Collect(t, es).stop.Some?
    ensures var it := Collect(t, es);
            ResolveEntry(t, es[|it.yielded|]) == Resolution(it.entries[|it.yielded|], Err(it.stop.value))
  {
    var first := ResolveEntry(t, es[0]);
    if first.plant.Ok? {
      var rest := Collect(t, es[1..]);
      CollectStopsAtFailure(t, es[1..]);
      assert es[1..][|rest.yielded|] == es[1 + |rest.yielded|];
    }
  }

  /** `Plants.__iter__`, run to completion. */
  function Iterate(ps: Plants): Iteration {
    Collect(ps.devices, ps.entries)
  }

  /** If entry k is the first that does not resolve, the iteration yields
      exactly the plants of the k entries before it and raises its error. */
  lemma StopsAtFirstFailure(ps: Plants, k: nat)
    requires k < |ps.entries|
    requires !EntryResolves(ps.devices, ps.entries[k])
    requires forall j :: 0 <= j < k ==> EntryResolves(ps.devices, ps.entries[j])
    ensures |Iterate(ps).yielded| == k
    ensures Iterate(ps).stop == Some(ResolveEntry(ps.devices, ps.entries[k]).plant.error)
  {
    var it := Iterate(ps);
    assert ResolveEntry(ps.devices, ps.entries[k]).plant.Err?;
    if |it.yielded| > k {
      CollectYieldsResolvedPlants(ps.devices, ps.entries, k);
      assert false;
    }
    assert it.stop.Some?;
    CollectStopsAtFailure(ps.devices, ps.entries);
  }

  /** When every entry resolves, the iteration yields one well-formed plant
      per entry, in configuration order, with its valve resolved through
      `valves`, its pump through `pumps` and its `water_level` taken from the
      entry (or the default), and every entry keeps all its other fields. */
  lemma YieldsOnePlantPerEntry(ps: Plants)
    requires forall j :: 0 <= j < |ps.entries| ==> EntryResolves(ps.devices, ps.entries[j])
    ensures |Iterate(ps).yielded| == |ps.entries| && Iterate(ps).stop.None?
    ensures forall j :: 0 <= j < |ps.entries| ==>
              var p := Iterate(ps).yielded[j];
              && EntryResolves(ps.devices, ps.entries[j])
              && WellFormed(p)
              && p.valve.pin == ps.devices.relays[Table(ps.devices, Valves)[ps.entries[j]["valve"].s]]
              && p.pump.pin == ps.devices.relays[Table(ps.devices, Pumps)[ps.entries[j]["pump"].s]]
              && p.name == ps.entries[j]["name"]
              && p.waterLevel == (if "water_level" in ps.entries[j] then ps.entries[j]["water_level"] else Text(DefaultWaterLevel))
    ensures forall j, f :: 0 <= j < |ps.entries| && f in ps.entries[j] && f != "valve" && f != "pump" ==>
              f in Iterate(ps).entries[j] && Iterate(ps).entries[j][f] == ps.entries[j][f]
  {
    if Iterate(ps).stop.Some? {
      CollectStopsAtFailure(ps.devices, ps.entries);
      assert false;
    }
    forall j | 0 <= j < |ps.entries|
      ensures ResolveEntry(ps.devices, ps.entries[j]) == Resolution(Iterate(ps).entries[j], Ok(Iterate(ps).yielded[j]))
    {
      CollectYieldsResolvedPlants(ps.devices, ps.entries, j);
    }
  }

  /** An empty `plants` list is accepted and yields nothing. */
  lemma EmptyPlantsYieldNothing(d: DeviceTables)
    ensures NewPlants(Config(d, Some([]))).Ok?
    ensures Iterate(NewPlants(Config(d, Some([]))).value) == Iteration([], [], None)
  {
  }

  /** The iteration is not restartable: the entries it rewrote cannot be
      iterated again, because their `valve` fields now hold relays. */
  lemma RewrittenEntriesDoNotResolveAgain(t: DeviceTables, es: seq<Entry>)
    requires |Collect(t, es).yielded| > 0
    ensures Collect(t, Collect(t, es).entries).yielded == []
    ensures Collect(t, Collect(t, es).entries).stop == Some(DeviceIdNotAKey("valve"))
  {
    var it := Collect(t, es);
    assert it.entries[0]["valve"].Device?;
  }
}
