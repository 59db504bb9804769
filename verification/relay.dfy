/** Relays: the binary-output devices (solenoid valves and pumps) that the
    controller switches, and their resolution from the configuration.

    A relay is bound to one GPIO pin. The pin itself is an abstract id; an
    operation on a relay is modelled by the single output command it issues.
 */
module Relay {
  import opened Outcome

  /** Physical pin identifier, as listed in the configuration's `relays`. */
  type Pin = int

  /** The two electrical levels a pin can be driven to or read at. */
  datatype Level = Low | High

  /** Logical negation of a level read from a pin (`not pin.input()`). */
  function Complement(l: Level): (c: Level)
    ensures c != l
  {
    match l
    case Low => High
    case High => Low
  }

  /** The relay boards are active-low: the load is switched on while the
      pin is held LOW, and off while it is HIGH. */
  predicate Energised(l: Level) {
    l == Low
  }

  /** The two lookup tables a device can be registered in. */
  datatype Category = Valves | Pumps

  /** The classes of the relay hierarchy: the base class leaves its
      category tag unset, the two subclasses set it. */
  datatype DeviceClass = BaseRelay | SolenoidValve | Pump

  /** The class-level category tag (`_device_type`). */
  function DeviceType(k: DeviceClass): (c: Option<Category>)
    ensures c.None? <==> k == BaseRelay
    ensures k == SolenoidValve ==> c == Some(Valves)
    ensures k == Pump ==> c == Some(Pumps)
  {
    match k
    case BaseRelay => None
    case SolenoidValve => Some(Valves)
    case Pump => Some(Pumps)
  }

  /** A constructed relay: its class, the device id it was resolved from,
      and the pin it drives. */
  datatype Relay = Relay(kind: DeviceClass, deviceId: string, pin: Pin)

  /** The one output call an operation on a relay makes. */
  datatype Command = Command(relay: Relay, level: Level)

  /** Why a relay could not be constructed or resolved. */
  datatype RelayError =
    | DeviceTypeUnknown                             // the constructor's check on the category tag
    | TableMissing                                  // the configuration has no table for an unset tag
    | UnknownDevice(category: Category, id: string) // the id is not a key of the category's table
    | IndexOutOfRange(category: Category, index: nat) // the table's index is not a position of `relays`

  /** The part of the configuration document used to resolve devices.
      An absent `valves` or `pumps` table is modelled as an empty one. */
  datatype DeviceTables = DeviceTables(relays: seq<Pin>, valves: map<string, nat>, pumps: map<string, nat>)

  /** The table the category selects. */
  function Table(t: DeviceTables, c: Category): map<string, nat> {
    match c
    case Valves => t.valves
    case Pumps => t.pumps
  }

  /** The relay constructor: it keeps the pin and the device id, and refuses
      a class whose category tag is unset. */
  function NewRelay(k: DeviceClass, pin: Pin, id: string): (r: Result<Relay, RelayError>)
    ensures r.Err? <==> DeviceType(k).None?
    ensures r.Err? ==> r.error == DeviceTypeUnknown
    ensures r.Ok? ==> r.value.kind == k && r.value.pin == pin && r.value.deviceId == id
  {
    if DeviceType(k).None? then Err(DeviceTypeUnknown) else Ok(Relay(k, id, pin))
  }

  /** True when `id` names a device of category `c` whose index is a position
      of `relays`: exactly the inputs on which resolution succeeds. */
  predicate Resolvable(t: DeviceTables, c: Category, id: string) {
    id in Table(t, c) && Table(t, c)[id] < |t.relays|
  }

  /** `get_relay`: the two-level lookup `relays[config[category][id]]`,
      then the constructor. The table lookup happens before the constructor
      runs, so for the base class (no tag) it is the missing table that
      fails, never the constructor's check. */
  function GetRelay(t: DeviceTables, k: DeviceClass, id: string): (r: Result<Relay, RelayError>)
    ensures r.Ok? <==> DeviceType(k).Some? && Resolvable(t, DeviceType(k).value, id)
    ensures r.Ok? ==> r.value.kind == k && r.value.deviceId == id
                      && r.value.pin == t.relays[Table(t, DeviceType(k).value)[id]]
    ensures r.Err? ==> r.error != DeviceTypeUnknown
    ensures k == BaseRelay ==> r == Err(TableMissing)
  {
    match DeviceType(k)
    case None => Err(TableMissing)
    case Some(c) =>
      if id !in Table(t, c) then Err(UnknownDevice(c, id))
      else if Table(t, c)[id] >= |t.relays| then Err(IndexOutOfRange(c, Table(t, c)[id]))
      else NewRelay(k, t.relays[Table(t, c)[id]], id)
  }

  /** `on()`: one output call on the relay's own pin that energises the load. */
  function On(r: Relay): (c: Command)
    ensures c.relay == r && Energised(c.level)
  {
    Command(r, Low)
  }

  /** `off()`: one output call on the relay's own pin that de-energises the load. */
  function Off(r: Relay): (c: Command)
    ensures c.relay == r && !Energised(c.level)
  {
    Command(r, High)
  }

  /** `toggle()`: drives the complement of the level `read` from the pin. */
  function Toggle(r: Relay, read: Level): (c: Command)
    ensures c.relay == r && c.level != read
  {
    Command(r, Complement(read))
  }

  /** Toggling a relay that reads as switched on switches it off, and the
      other way round: toggle is the inverse pairing of on and off. */
  lemma ToggleSwapsOnAndOff(r: Relay)
    ensures Toggle(r, On(r).level) == Off(r)
    ensures Toggle(r, Off(r).level) == On(r)
  {
  }

  /** The category selects the table: the id "x" names a valve on pin 7
      and a pump on pin 8. */
  lemma SameIdDifferentPins()
    ensures var t := DeviceTables([7, 8], map["x" := 0], map["x" := 1]);
            && GetRelay(t, SolenoidValve, "x") == Ok(Relay(SolenoidValve, "x", 7))
            && GetRelay(t, Pump, "x") == Ok(Relay(Pump, "x", 8))
  {
  }
}
