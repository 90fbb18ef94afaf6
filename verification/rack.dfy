/** The editor state of the network rack app (network-rack-app/src/App.jsx)
    and its four transitions: adding a catalog device, removing a device,
    repositioning a device after a drag, and the two-click port selection
    that creates cables. Each React handler is read as one atomic step from
    the current `{devices, connections, pendingConn}` to the next. */
module Rack {
  import opened Strings
  import opened Seqs

  datatype Option<T> = None | Some(value: T)

  /** The rack is drawn with 42 unit markers; a drag is clamped into 1..42. */
  const RackUnits: int := 42

  /** Only the first 16 port records of a device are drawn, hence clickable. */
  const RenderedPortLimit: nat := 16

  /** The stroke colour every new cable receives. */
  const CableColor: string := "#38bdf8"

  /** The keys of the hardware catalog. */
  datatype ModelKey = Firewall | Switch24 | Server2U

  datatype HardwareModel = HardwareModel(name: string, size: nat, ports: nat, color: string)

  /** The static hardware catalog: every model is 1 or 2 units tall and has
      ports; the entries are the three listed below. */
  function Catalog(key: ModelKey): (m: HardwareModel)
    ensures 1 <= m.size <= 2 && m.ports >= 1
    ensures key == Firewall ==> m.name == "Firewall" && m.size == 1 && m.ports == 8 && m.color == "bg-red-900"
    ensures key == Switch24 ==> m.name == "Switch 24" && m.size == 1 && m.ports == 24 && m.color == "bg-slate-800"
    ensures key == Server2U ==> m.name == "Server 2U" && m.size == 2 && m.ports == 4 && m.color == "bg-blue-900"
  {
    match key
    case Firewall => HardwareModel("Firewall", 1, 8, "bg-red-900")
    case Switch24 => HardwareModel("Switch 24", 1, 24, "bg-slate-800")
    case Server2U => HardwareModel("Server 2U", 2, 4, "bg-blue-900")
  }

  /** A port record; its id is its 1-based position on the device. */
  datatype Port = Port(id: nat)

  /** A placed device: the catalog fields it was copied from, the unit its
      bottom edge sits on, and its port records. */
  datatype Device = Device(
    id: string,
    name: string,
    size: nat,
    ports: nat,
    color: string,
    startU: int,
    portData: seq<Port>)

  /** A cable between two port keys. */
  datatype Connection = Connection(id: nat, start: string, end: string, color: string)

  /** `pending` is the port key armed by a first click, if any. */
  datatype State = State(devices: seq<Device>, connections: seq<Connection>, pending: Option<string>)

  /** The state before any interaction: nothing placed, nothing armed. */
  const Initial: State := State([], [], None)

  /** The id `dev-${Date.now()}` a device receives when the clock reads `now`. */
  function ClockDeviceId(now: nat): (id: string)
    ensures |id| == 4 + |Decimal(now)|
    ensures id[..4] == "dev-" && id[4..] == Decimal(now)
  {
    "dev-" + Decimal(now)
  }

  /** The key `${dev.id}-p${p.id}` that names port `portId` of device `devId`. */
  function PortKey(devId: string, portId: nat): (k: string)
    ensures |k| >= |devId| + 3
    ensures k[..|devId|] == devId && k[|devId|] == '-' && k[|devId| + 1] == 'p'
    ensures k[|devId| + 2..] == Decimal(portId)
  {
    devId + "-p" + Decimal(portId)
  }

  /** `Array.from({length: n}, (_, i) => ({id: i + 1}))`. */
  function MakePorts(n: nat): (ps: seq<Port>)
    ensures |ps| == n
    ensures forall i :: 0 <= i < n ==> ps[i].id == i + 1
    decreases n
  {
    if n == 0 then [] else MakePorts(n - 1) + [Port(n)]
  }

  /** `addDevice(modelKey)` with the fresh id passed in: one device from the
      catalog is appended at unit 1, whatever already sits there. */
  function AddDevice(s: State, key: ModelKey, newId: string): (r: State)
    ensures |r.devices| == |s.devices| + 1
    ensures r.devices[..|s.devices|] == s.devices
    ensures var d := r.devices[|s.devices|];
      && d.id == newId
      && d.startU == 1
      && d.name == Catalog(key).name
      && d.size == Catalog(key).size
      && d.ports == Catalog(key).ports
      && d.color == Catalog(key).color
    ensures var d := r.devices[|s.devices|];
      && |d.portData| == Catalog(key).ports
      && forall i :: 0 <= i < |d.portData| ==> d.portData[i].id == i + 1
    ensures r.connections == s.connections && r.pending == s.pending
  {
    var m := Catalog(key);
    var d := Device(newId, m.name, m.size, m.ports, m.color, 1, MakePorts(m.ports));
    assert (s.devices + [d])[..|s.devices|] == s.devices;
    s.(devices := s.devices + [d])
  }

  /** `removeDevice(id)`: devices with that exact id go, and so does every
      connection one of whose endpoint keys merely includes `id` as a
      substring. The armed port, if any, stays armed. */
  function RemoveDevice(s: State, id: string): (r: State)
    ensures forall i :: 0 <= i < |r.devices| ==> r.devices[i] in s.devices && r.devices[i].id != id
    ensures forall i :: 0 <= i < |s.devices| && s.devices[i].id != id ==> s.devices[i] in r.devices
    ensures forall i :: 0 <= i < |r.connections| ==> r.connections[i] in s.connections && !Touches(r.connections[i], id)
    ensures forall i :: 0 <= i < |s.connections| && !Touches(s.connections[i], id) ==> s.connections[i] in r.connections
    ensures multiset(r.devices) <= multiset(s.devices)
    ensures forall i :: 0 <= i < |s.devices| && s.devices[i].id != id ==>
      multiset(r.devices)[s.devices[i]] == multiset(s.devices)[s.devices[i]]
    ensures multiset(r.connections) <= multiset(s.connections)
    ensures forall i :: 0 <= i < |s.connections| && !Touches(s.connections[i], id) ==>
      multiset(r.connections)[s.connections[i]] == multiset(s.connections)[s.connections[i]]
    ensures IsSubsequence(r.devices, s.devices)
    ensures IsSubsequence(r.connections, s.connections)
    ensures r.pending == s.pending
  {
    FilterIsSubsequence(s.devices, KeepDevice(id));
    FilterIsSubsequence(s.connections, KeepConnection(id));
    FilterCounts(s.devices, KeepDevice(id));
    FilterCounts(s.connections, KeepConnection(id));
    State(Filter(s.devices, KeepDevice(id)), Filter(s.connections, KeepConnection(id)), s.pending)
  }

  /** The device test of `removeDevice`: `d.id !== id`. */
  function KeepDevice(id: string): Device -> bool
  {
    (d: Device) => d.id != id
  }

  /** `c.start.includes(id) || c.end.includes(id)`. */
  predicate Touches(c: Connection, id: string)
  {
    Contains(c.start, id) || Contains(c.end, id)
  }

  /** The connection test of `removeDevice`: no endpoint key includes `id`. */
  function KeepConnection(id: string): Connection -> bool
  {
    (c: Connection) => !Touches(c, id)
  }

  /** `Math.max(1, Math.min(42, u))`. */
  function ClampUnit(u: int): (r: int)
    ensures 1 <= r <= RackUnits
    ensures 1 <= u <= RackUnits ==> r == u
    ensures u < 1 ==> r == 1
    ensures u > RackUnits ==> r == RackUnits
  {
    if u < 1 then 1 else if u > RackUnits then RackUnits else u
  }

  /** `devices.map(d => d.id === id ? {...d, startU: u} : d)`. */
  function MoveMatching(ds: seq<Device>, id: string, u: int): (r: seq<Device>)
    ensures |r| == |ds|
    ensures forall i :: 0 <= i < |ds| ==> r[i].id == ds[i].id && r[i] == ds[i].(startU := r[i].startU)
    ensures forall i :: 0 <= i < |ds| ==> r[i].startU == if ds[i].id == id then u else ds[i].startU
    decreases |ds|
  {
    if |ds| == 0 then []
    else [if ds[0].id == id then ds[0].(startU := u) else ds[0]] + MoveMatching(ds[1..], id, u)
  }

  /** `handleDragEnd` once the touch or mouse position has become a proposed unit:
      every device with the id lands on the clamped unit, with no check of
      its height or of the devices already there. */
  function DragEnd(s: State, id: string, proposedU: int): (r: State)
    ensures |r.devices| == |s.devices|
    ensures forall i :: 0 <= i < |s.devices| && s.devices[i].id == id ==>
      r.devices[i] == s.devices[i].(startU := ClampUnit(proposedU))
    // the headline bound: a dragged device always ends up within the rack's units
    ensures forall i :: 0 <= i < |s.devices| && s.devices[i].id == id ==> 1 <= r.devices[i].startU <= RackUnits
    ensures forall i :: 0 <= i < |s.devices| && s.devices[i].id != id ==> r.devices[i] == s.devices[i]
    ensures r.connections == s.connections && r.pending == s.pending
  {
    s.(devices := MoveMatching(s.devices, id, ClampUnit(proposedU)))
  }

  /** JavaScript truthiness of `pendingConn`: `null` and `""` are falsy,
      every non-empty key is truthy. */
  predicate Truthy(pending: Option<string>)
    ensures pending.None? ==> !Truthy(pending)
    ensures pending == Some("") ==> !Truthy(pending)
    ensures pending.Some? && |pending.value| > 0 ==> Truthy(pending)
  {
    pending.Some? && pending.value != ""
  }

  /** The port `onClick`, given the clicked key: with nothing armed the key
      is armed; with a key armed a cable from it to the clicked key is
      appended and the selection is cleared, even when both keys are equal. */
  function ClickPort(s: State, key: string, connId: nat): (r: State)
    ensures r.devices == s.devices
    ensures !Truthy(s.pending) ==> r.connections == s.connections && r.pending == Some(key)
    ensures Truthy(s.pending) ==>
      && |r.connections| == |s.connections| + 1
      && r.connections[..|s.connections|] == s.connections
      && r.connections[|s.connections|] == Connection(connId, s.pending.value, key, CableColor)
      && r.pending == None
  {
    if !Truthy(s.pending) then s.(pending := Some(key))
    else
      var c := Connection(connId, s.pending.value, key, CableColor);
      assert (s.connections + [c])[..|s.connections|] == s.connections;
      s.(connections := s.connections + [c], pending := None)
  }

  /** The port records that get a clickable square: `portData.slice(0, 16)`. */
  function RenderedPorts(d: Device): (ps: seq<Port>)
    ensures |ps| <= RenderedPortLimit && |ps| <= |d.portData|
    ensures |ps| == if |d.portData| < RenderedPortLimit then |d.portData| else RenderedPortLimit
    ensures ps == d.portData[..|ps|]
  {
    if |d.portData| <= RenderedPortLimit then d.portData else d.portData[..RenderedPortLimit]
  }

  /** A click on the `slot`-th drawn port square of the `devIndex`-th device:
      the key it acts on names that device and one of its first 16 records. */
  function ClickRenderedPort(s: State, devIndex: nat, slot: nat, connId: nat): (r: State)
    requires devIndex < |s.devices|
    requires slot < |RenderedPorts(s.devices[devIndex])|
    ensures r.devices == s.devices
    ensures var d := s.devices[devIndex];
      var key := PortKey(d.id, d.portData[slot].id);
      && slot < RenderedPortLimit
      && (!Truthy(s.pending) ==> r.pending == Some(key) && r.connections == s.connections)
      && (Truthy(s.pending) ==>
            && r.pending == None
            && r.connections == s.connections + [Connection(connId, s.pending.value, key, CableColor)])
  {
    var d := s.devices[devIndex];
    ClickPort(s, PortKey(d.id, RenderedPorts(d)[slot].id), connId)
  }
}
