/** One pass of the scheduler loop: every plant the collection yields is
    watered in turn, fully, before the next entry is even resolved.

    The endless loop, the board acquisition and the re-reading of the
    configuration file are outside the model: a pass is a function of the
    configuration it was given, so two passes over the same configuration
    produce the same trace.
 */
module Scheduler {
  import opened Outcome
  import opened Relay
  import opened WaterLevel
  import opened Plant

  /** The faults of the plant at position `i` of the pass (none beyond the
      end of `fs`). */
  function FaultsAt(fs: seq<set<Step>>, i: nat): set<Step> {
    if i < |fs| then fs[i] else {}
  }

  /** The faults of the plants after the first. */
  function Later(fs: seq<set<Step>>): (r: seq<set<Step>>)
    ensures forall i: nat :: FaultsAt(r, i) == FaultsAt(fs, i + 1)
  {
    if |fs| == 0 then [] else fs[1..]
  }

  /** Waters `ps` in order, each plant fully before the next, stopping at the
      first watering that raises. */
  function WaterAll(ps: seq<Plant>, fs: seq<set<Step>>): (w: Watering)
    ensures w.status.Done? <==> forall i :: 0 <= i < |ps| ==> Water(ps[i], FaultsAt(fs, i)).status.Done?
  {
    if |ps| == 0 then Watering([], Done)
    else
      var first := Water(ps[0], FaultsAt(fs, 0));
      if first.status.Raised? then first
      else
        var rest := WaterAll(ps[1..], Later(fs));
        assert forall i :: 1 <= i < |ps| ==> ps[i] == ps[1..][i - 1] && FaultsAt(fs, i) == FaultsAt(Later(fs), i - 1);
        Watering(first.trace + rest.trace, rest.status)
  }

  /** The lazy loop `for plant in Plants(config): plant.water()` over the
      remaining entries: resolve one entry, water its plant, go on. */
  function PassOver(t: DeviceTables, es: seq<Entry>, fs: seq<set<Step>>): Watering {
    if |es| == 0 then Watering([], Done)
    else match ResolveEntry(t, es[0]).plant
      case Err(e) => Watering([], Raised(e))
      case Ok(p) =>
        var first := Water(p, FaultsAt(fs, 0));
        if first.status.Raised? then first
        else
          var rest := PassOver(t, es[1..], Later(fs));
          Watering(first.trace + rest.trace, rest.status)
  }

  /** One pass over a configuration: construct the collection, then water
      what it yields. */
  function Pass(cfg: Config, fs: seq<set<Step>>): Watering {
    match NewPlants(cfg)
    case Err(e) => Watering([], Raised(e))
    case Ok(ps) => PassOver(ps.devices, ps.entries, fs)
  }

  /** A pass is the in-order concatenation of the waterings of the plants
      the collection yields, stopping at the first watering that raises;
      when every watering completes, the pass ends the way the iteration
      does. Resolution errors emit nothing, so a bad entry k aborts the pass
      after exactly the k plants before it were watered. */
  lemma {:induction false} PassOverIsConcatenation(t: DeviceTables, es: seq<Entry>, fs: seq<set<Step>>)
    ensures var it := Collect(t, es);
            var w := WaterAll(it.yielded, fs);
            PassOver(t, es, fs) ==
              if w.status.Raised? || it.stop.None? then w else Watering(w.trace, Raised(it.stop.value))
  {
    if |es| > 0 {
      var first := ResolveEntry(t, es[0]);
      if first.plant.Ok? {
        var it := Collect(t, es);
        var rest := Collect(t, es[1..]);
        assert it.yielded == [first.plant.value] + rest.yielded;
        assert it.yielded[1..] == rest.yielded;
        PassOverIsConcatenation(t, es[1..], Later(fs));
      }
    }
  }

  /** The same statement for a whole pass, starting from the configuration:
      a configuration without `plants` raises before anything is actuated. */
  lemma PassIsConcatenation(cfg: Config, fs: seq<set<Step>>)
    ensures cfg.plants.None? ==> Pass(cfg, fs) == Watering([], Raised(NoPlants))
    ensures cfg.plants.Some? ==>
              var it := Iterate(NewPlants(cfg).value);
              var w := WaterAll(it.yielded, fs);
              Pass(cfg, fs) ==
                if w.status.Raised? || it.stop.None? then w else Watering(w.trace, Raised(it.stop.value))
  {
    if cfg.plants.Some? {
      PassOverIsConcatenation(cfg.devices, cfg.plants.value, fs);
    }
  }

  /** Plants are watered serially: the trace of a pass over plants whose
      waterings complete is the first plant's whole watering, ending with its
      pump off and valve off, followed by the rest of the pass. */
  lemma WateringsDoNotOverlap(ps: seq<Plant>, fs: seq<set<Step>>)
    requires |ps| > 0 && WellFormed(ps[0])
    requires Water(ps[0], FaultsAt(fs, 0)).status.Done?
    ensures var first := Water(ps[0], FaultsAt(fs, 0)).trace;
            && WaterAll(ps, fs).trace == first + WaterAll(ps[1..], Later(fs)).trace
            && first[|first| - 2..] == [Actuate(Off(ps[0].pump)), Actuate(Off(ps[0].valve))]
  {
    var faults := FaultsAt(fs, 0);
    assert PumpOff !in faults && ValveOff !in faults by {
      CleanupMustSucceed(ps[0], faults);
    }
    CleanupAlwaysRuns(ps[0], faults);
  }

  /** The plant-collection scenario: relays [1, 2, 3], valve "v1" at index 0,
      pump "p1" at index 1, and one plant "Basil" with water level "05s". */
  function BasilConfig(): Config {
    Config(DeviceTables([1, 2, 3], map["v1" := 0], map["p1" := 1]),
           Some([map["name" := Text("Basil"), "valve" := Text("v1"),
                     "pump" := Text("p1"), "water_level" := Text("05s")]]))
  }

  /** The pins an event trace drives, with the waits between them. */
  datatype PinEvent = Drive(pin: Pin, level: Level) | Sleep(seconds: nat)

  function PinTrace(t: seq<Event>): (r: seq<PinEvent>)
    ensures |r| == |t|
    ensures forall i :: 0 <= i < |t| ==>
              r[i] == match t[i]
                      case Actuate(c) => Drive(c.relay.pin, c.level)
                      case Wait(d) => Sleep(d)
  {
    seq(|t|, i requires 0 <= i < |t| =>
      match t[i]
      case Actuate(c) => Drive(c.relay.pin, c.level)
      case Wait(d) => Sleep(d))
  }

  /** Watering Basil drives pin 1 LOW, waits 1 s, drives pin 2 LOW, waits
      5 s, drives pin 2 HIGH and pin 1 HIGH, in that order, and completes. */
  lemma BasilScenario()
    ensures Pass(BasilConfig(), []).status == Done
    ensures PinTrace(Pass(BasilConfig(), []).trace) ==
              [Drive(1, Low), Sleep(1), Drive(2, Low), Sleep(5), Drive(2, High), Drive(1, High)]
  {
    var cfg := BasilConfig();
    var valve := Relay(SolenoidValve, "v1", 1);
    var pump := Relay(Pump, "p1", 2);
    var p := Plant(Text("Basil"), valve, Text("05s"), pump);
    var t := [Actuate(On(valve)), Wait(1), Actuate(On(pump)), Wait(5), Actuate(Off(pump)), Actuate(Off(valve))];
    assert Water(p, {}) == Watering(t, Done) by {
      WaterWithoutFaults(p);
      assert GetWaterTime("05s") == 5;
    }
    assert Pass(cfg, []) == Watering(t, Done) by {
      BasilResolves();
      assert PassOver(cfg.devices, cfg.plants.value[1..], Later([])) == Watering([], Done);
      assert t + [] == t;
    }
    var r := PinTrace(t);
    assert r[0] == Drive(1, Low) && r[1] == Sleep(1) && r[2] == Drive(2, Low);
    assert r[3] == Sleep(5) && r[4] == Drive(2, High) && r[5] == Drive(1, High);
  }

  /** Basil's entry resolves to valve "v1" on pin 1 and pump "p1" on pin 2. */
  lemma BasilResolves()
    ensures ResolveEntry(BasilConfig().devices, BasilConfig().plants.value[0]).plant
            == Ok(Plant(Text("Basil"), Relay(SolenoidValve, "v1", 1), Text("05s"), Relay(Pump, "p1", 2)))
  {
    var cfg := BasilConfig();
    var e := cfg.plants.value[0];
    assert EntryResolves(cfg.devices, e);
    assert GetRelay(cfg.devices, SolenoidValve, "v1") == Ok(Relay(SolenoidValve, "v1", 1));
    assert GetRelay(cfg.devices, Pump, "p1") == Ok(Relay(Pump, "p1", 2));
  }
}
