/** Properties of the rack editor's transitions: the shape every reachable
    state keeps, how a run of port clicks pairs up into cables, what a drag
    and a removal change and leave alone, and where the code departs from an
    idealised rack (no collision check, no height-aware clamp, no toggle-off,
    substring-based cascade). */
module RackProperties {
  import opened Strings
  import opened Seqs
  import opened Rack

  // ---------------------------------------------------------------------
  // Port keys
  // ---------------------------------------------------------------------

  /** Past the device id, a port key holds `-p`'s `p` and then digits only. */
  lemma AfterDeviceIdNoDash(d: string, n: nat, j: int)
    requires |d| < j < |PortKey(d, n)|
    ensures PortKey(d, n)[j] != '-'
  {}

  /** A port key names exactly one (device id, port id) pair: the device id
      is everything before the last `-p`, the port id the digits after it. */
  lemma PortKeyInjective(d1: string, n1: nat, d2: string, n2: nat)
    requires PortKey(d1, n1) == PortKey(d2, n2)
    ensures d1 == d2 && n1 == n2
  {
    var k := PortKey(d1, n1);
    if |d2| < |d1| {
      AfterDeviceIdNoDash(d2, n2, |d1|);
    }
    if |d1| < |d2| {
      AfterDeviceIdNoDash(d1, n1, |d2|);
    }
    assert |d1| == |d2|;
    assert d1 == k[..|d1|] == d2;
    assert Decimal(n1) == k[|d1| + 2..] == Decimal(n2);
    DecimalInjective(n1, n2);
  }

  /** A port key includes its device id, so the substring cascade of
      `removeDevice` always reaches the removed device's own ports. */
  lemma PortKeyContainsDeviceId(d: string, n: nat)
    ensures Contains(PortKey(d, n), d)
  {}

  /** In a port key of a clock-derived device id, `d` occurs only at the start. */
  lemma ClockKeyLetterD(t: nat, n: nat, j: int)
    requires 1 <= j < |PortKey(ClockDeviceId(t), n)|
    ensures PortKey(ClockDeviceId(t), n)[j] != 'd'
  {}

  /** With clock-derived ids of equal digit count (as `Date.now()` gives for
      centuries), the substring test of the cascade is exact: a port key of
      device `t2` includes the id of device `t1` exactly when they are the
      same device. */
  lemma ClockIdCascadeExact(t1: nat, t2: nat, n: nat)
    requires |Decimal(t1)| == |Decimal(t2)|
    ensures Contains(PortKey(ClockDeviceId(t2), n), ClockDeviceId(t1)) <==> t1 == t2
  {
    var id1 := ClockDeviceId(t1);
    var id2 := ClockDeviceId(t2);
    var k := PortKey(id2, n);
    if t1 == t2 {
      PortKeyContainsDeviceId(id2, n);
    }
    if Contains(k, id1) {
      ContainsImpliesOccurs(k, id1);
      var i :| OccursAt(k, id1, i);
      assert k[i] == id1[0] == 'd';
      if i >= 1 {
        ClockKeyLetterD(t2, n, i);
      }
      assert k[..|id1|] == id1;
      assert k[..|id2|] == id2;
      assert Decimal(t1) == id1[4..] == id2[4..] == Decimal(t2);
      DecimalInjective(t1, t2);
    }
  }

  /** Without equal digit counts the cascade overreaches: a port of device
      `dev-12` includes the id `dev-1`. */
  lemma ClockIdCascadeOverreach()
    ensures Contains(PortKey(ClockDeviceId(12), 3), ClockDeviceId(1))
  {}

  // ---------------------------------------------------------------------
  // Well-formed states and reachability
  // ---------------------------------------------------------------------

  ghost predicate IsPortKey(k: string)
  {
    exists d: string, n: nat :: k == PortKey(d, n)
  }

  /** A device as `addDevice` builds it and `handleDragEnd` keeps it: catalog
      fields, a unit within the rack, port records numbered 1..ports. */
  ghost predicate WellFormedDevice(d: Device)
  {
    && 1 <= d.startU <= RackUnits
    && (exists key: ModelKey ::
          && d.name == Catalog(key).name
          && d.size == Catalog(key).size
          && d.ports == Catalog(key).ports
          && d.color == Catalog(key).color)
    && |d.portData| == d.ports
    && (forall i :: 0 <= i < |d.portData| ==> d.portData[i].id == i + 1)
  }

  /** Every state the editor reaches from `Initial` has this shape. */
  ghost predicate WellFormed(s: State)
  {
    && (forall d :: d in s.devices ==> WellFormedDevice(d))
    && (forall c :: c in s.connections ==> IsPortKey(c.start) && IsPortKey(c.end) && c.color == CableColor)
    && (s.pending.Some? ==> IsPortKey(s.pending.value))
  }

  /** One user interaction. The clock readings a handler would take are
      carried by the event. */
  datatype Event =
    | Add(key: ModelKey, newId: string)
    | Remove(id: string)
    | Drag(id: string, proposedU: int)
    | Click(devId: string, portId: nat, connId: nat)

  function Apply(s: State, e: Event): State
  {
    match e
    case Add(key, newId) => AddDevice(s, key, newId)
    case Remove(id) => RemoveDevice(s, id)
    case Drag(id, u) => DragEnd(s, id, u)
    case Click(devId, portId, connId) => ClickPort(s, PortKey(devId, portId), connId)
  }

  function Run(s: State, es: seq<Event>): State
    decreases |es|
  {
    if |es| == 0 then s else Run(Apply(s, es[0]), es[1..])
  }

  lemma AddPreservesWellFormed(s: State, key: ModelKey, newId: string)
    requires WellFormed(s)
    ensures WellFormed(AddDevice(s, key, newId))
  {}

  lemma DragPreservesWellFormed(s: State, id: string, u: int)
    requires WellFormed(s)
    ensures WellFormed(DragEnd(s, id, u))
  {
    var r := DragEnd(s, id, u);
    forall d | d in r.devices
      ensures WellFormedDevice(d)
    {
      var i :| 0 <= i < |r.devices| && r.devices[i] == d;
      assert s.devices[i] in s.devices;
    }
  }

  lemma ClickPreservesWellFormed(s: State, devId: string, portId: nat, connId: nat)
    requires WellFormed(s)
    ensures WellFormed(ClickPort(s, PortKey(devId, portId), connId))
  {}

  /** Every transition keeps a well-formed state well-formed. */
  lemma StepPreservesWellFormed(s: State, e: Event)
    requires WellFormed(s)
    ensures WellFormed(Apply(s, e))
  {
    match e
    case Add(key, newId) => AddPreservesWellFormed(s, key, newId);
    case Remove(id) =>
    case Drag(id, u) => DragPreservesWellFormed(s, id, u);
    case Click(devId, portId, connId) => ClickPreservesWellFormed(s, devId, portId, connId);
  }

  lemma {:induction false} RunPreservesWellFormed(s: State, es: seq<Event>)
    requires WellFormed(s)
    ensures WellFormed(Run(s, es))
    decreases |es|
  {
    if |es| > 0 {
      StepPreservesWellFormed(s, es[0]);
      RunPreservesWellFormed(Apply(s, es[0]), es[1..]);
    }
  }

  /** Whatever the user does from the empty editor, every device sits within
      units 1..42 with catalog fields and ports 1..n, and every cable endpoint
      and armed selection is a port key. */
  lemma ReachableWellFormed(es: seq<Event>)
    ensures WellFormed(Run(Initial, es))
  {
    RunPreservesWellFormed(Initial, es);
  }

  /** In a well-formed state the armed key is never the empty string, so the
      truthiness test `!pendingConn` is the same as "nothing armed". */
  lemma PendingTruthyIffArmed(s: State)
    requires WellFormed(s)
    ensures Truthy(s.pending) <==> s.pending.Some?
  {}

  // ---------------------------------------------------------------------
  // Port selection
  // ---------------------------------------------------------------------

  /** Feeds the clicked keys to the handler one at a time; `ids[i]` is the
      clock reading of the `i`-th click. */
  function ClickAll(s: State, keys: seq<string>, ids: seq<nat>): State
    requires |keys| == |ids|
    decreases |keys|
  {
    if |keys| == 0 then s else ClickAll(ClickPort(s, keys[0], ids[0]), keys[1..], ids[1..])
  }

  /** The cables that pairing consecutive clicks should produce: clicks
      2i and 2i+1 give one cable, carrying the id of the second click. */
  function Pairs(keys: seq<string>, ids: seq<nat>): seq<Connection>
    requires |keys| == |ids|
    decreases |keys|
  {
    if |keys| < 2 then []
    else [Connection(ids[1], keys[0], keys[1], CableColor)] + Pairs(keys[2..], ids[2..])
  }

  /** Starting idle, any run of clicks on (non-empty) port
      keys pairs consecutive clicks into cables, in order, and leaves the
      last click armed exactly when their number is odd. Devices are never
      touched. */
  lemma {:induction false} ClicksPairUp(s: State, keys: seq<string>, ids: seq<nat>)
    requires |keys| == |ids|
    requires s.pending == None
    requires forall i :: 0 <= i < |keys| ==> keys[i] != ""
    ensures ClickAll(s, keys, ids).devices == s.devices
    ensures ClickAll(s, keys, ids).connections == s.connections + Pairs(keys, ids)
    ensures |keys| % 2 == 0 ==> ClickAll(s, keys, ids).pending == None
    ensures |keys| % 2 == 1 ==> ClickAll(s, keys, ids).pending == Some(keys[|keys| - 1])
    decreases |keys|
  {
    if |keys| == 0 {
      assert s.connections + [] == s.connections;
    } else if |keys| == 1 {
      var s1 := ClickPort(s, keys[0], ids[0]);
      assert ClickAll(s1, keys[1..], ids[1..]) == s1;
      assert s.connections + [] == s.connections;
    } else {
      var s1 := ClickPort(s, keys[0], ids[0]);
      var s2 := ClickPort(s1, keys[1], ids[1]);
      assert Truthy(s1.pending);
      assert keys[1..][1..] == keys[2..] && ids[1..][1..] == ids[2..];
      assert ClickAll(s, keys, ids) == ClickAll(s2, keys[2..], ids[2..]);
      ClicksPairUp(s2, keys[2..], ids[2..]);
      var c := Connection(ids[1], keys[0], keys[1], CableColor);
      assert s2.connections == s.connections + [c];
      assert s.connections + [c] + Pairs(keys[2..], ids[2..]) == s.connections + Pairs(keys, ids);
    }
  }

  /** Clicking the armed port again does not disarm it: it creates a cable
      from the port to itself. */
  lemma SamePortTwiceMakesSelfCable(s: State, devId: string, portId: nat, c1: nat, c2: nat)
    requires !Truthy(s.pending)
    ensures var key := PortKey(devId, portId);
      var r := ClickPort(ClickPort(s, key, c1), key, c2);
      && r.pending == None
      && r.connections == s.connections + [Connection(c2, key, key, CableColor)]
  {}

  /** For a device built by `addDevice`, the clickable squares are its ports
      1..min(16, ports), in order: ports 17 and up can never be selected. */
  lemma RenderedPortsOfWellFormed(d: Device)
    requires WellFormedDevice(d)
    ensures |RenderedPorts(d)| == if d.ports < RenderedPortLimit then d.ports else RenderedPortLimit
    ensures forall i :: 0 <= i < |RenderedPorts(d)| ==> RenderedPorts(d)[i].id == i + 1
    ensures forall p :: p in RenderedPorts(d) ==> 1 <= p.id <= RenderedPortLimit && p.id <= d.ports
  {}

  /** The 24-port switch exposes only 16 clickable ports. */
  lemma SwitchUpperPortsUnclickable(s: State, newId: string)
    ensures var d := AddDevice(s, Switch24, newId).devices[|s.devices|];
      && d.ports == 24
      && |RenderedPorts(d)| == 16
  {}

  /** On an added device, clicking the `slot`-th drawn square is the click
      event on port `slot + 1`, a port id between 1 and 16. */
  lemma RenderedClickIsLowPortClick(s: State, devIndex: nat, slot: nat, connId: nat)
    requires devIndex < |s.devices| && WellFormedDevice(s.devices[devIndex])
    requires slot < |RenderedPorts(s.devices[devIndex])|
    ensures 1 <= slot + 1 <= RenderedPortLimit
    ensures ClickRenderedPort(s, devIndex, slot, connId)
      == Apply(s, Click(s.devices[devIndex].id, slot + 1, connId))
  {
    RenderedPortsOfWellFormed(s.devices[devIndex]);
  }

  // ---------------------------------------------------------------------
  // Placement and dragging
  // ---------------------------------------------------------------------

  /** Closed-interval overlap of the units two devices occupy. */
  predicate Overlap(a: Device, b: Device)
  {
    a.startU <= b.startU + b.size - 1 && b.startU <= a.startU + a.size - 1
  }

  /** `addDevice` does not look for a free unit: the new device overlaps any
      device already sitting on unit 1. */
  lemma AddIgnoresOccupancy(s: State, key: ModelKey, newId: string, j: nat)
    requires j < |s.devices| && s.devices[j].startU == 1 && s.devices[j].size >= 1
    ensures var r := AddDevice(s, key, newId);
      && r.devices[j] == s.devices[j]
      && Overlap(r.devices[|s.devices|], r.devices[j])
  {}

  /** Moving the matching devices never changes which devices a removal of
      that id keeps: the survivors are the untouched ones. */
  lemma {:induction false} FilterAfterMove(ds: seq<Device>, id: string, u: int)
    ensures Filter(MoveMatching(ds, id, u), KeepDevice(id)) == Filter(ds, KeepDevice(id))
    decreases |ds|
  {
    if |ds| > 0 {
      var ms := MoveMatching(ds, id, u);
      assert ms == [ms[0]] + MoveMatching(ds[1..], id, u);
      assert ms[0].id == ds[0].id;
      FilterAfterMove(ds[1..], id, u);
    }
  }

  /** Dragging a device and then removing it is the same as removing it. */
  lemma DragThenRemove(s: State, id: string, u: int)
    ensures RemoveDevice(DragEnd(s, id, u), id) == RemoveDevice(s, id)
  {
    FilterAfterMove(s.devices, id, ClampUnit(u));
  }

  /** A later drag of the same device overrides an earlier one entirely; in
      particular a repeated drag is idempotent. */
  lemma DragLastWins(s: State, id: string, u1: int, u2: int)
    ensures DragEnd(DragEnd(s, id, u1), id, u2) == DragEnd(s, id, u2)
  {}

  /** Drags of different devices commute. */
  lemma DragsOfDistinctDevicesCommute(s: State, id1: string, u1: int, id2: string, u2: int)
    requires id1 != id2
    ensures DragEnd(DragEnd(s, id1, u1), id2, u2) == DragEnd(DragEnd(s, id2, u2), id1, u1)
  {}

  /** No collision check: dragging two devices to the same unit puts both
      there, overlapping. */
  lemma DragAllowsOverlap(s: State, i: nat, j: nat, u: int)
    requires i < |s.devices| && j < |s.devices|
    requires s.devices[i].size >= 1 && s.devices[j].size >= 1
    ensures var r := DragEnd(DragEnd(s, s.devices[i].id, u), s.devices[j].id, u);
      Overlap(r.devices[i], r.devices[j])
  {}

  /** The clamp ignores the device's height: a 2U server dragged to the top
      gets `startU == 42` and reaches unit 43, past the rack. */
  lemma DragOverhangsTop(s: State, i: nat, u: int)
    requires i < |s.devices| && s.devices[i].size == Catalog(Server2U).size
    requires u >= RackUnits
    ensures var d := DragEnd(s, s.devices[i].id, u).devices[i];
      d.startU + d.size - 1 == RackUnits + 1
  {}

  // ---------------------------------------------------------------------
  // Removal
  // ---------------------------------------------------------------------

  /** Removing the same id twice is removing it once. */
  lemma RemoveIdempotent(s: State, id: string)
    ensures RemoveDevice(RemoveDevice(s, id), id) == RemoveDevice(s, id)
  {
    FilterIdempotent(s.devices, KeepDevice(id));
    FilterIdempotent(s.connections, KeepConnection(id));
  }

  /** Removing an id that no device has and no endpoint key includes changes
      nothing. */
  lemma RemoveAbsentIsNoOp(s: State, id: string)
    requires forall i :: 0 <= i < |s.devices| ==> s.devices[i].id != id
    requires forall i :: 0 <= i < |s.connections| ==> !Touches(s.connections[i], id)
    ensures RemoveDevice(s, id) == s
  {
    FilterKeepsAll(s.devices, KeepDevice(id));
    FilterKeepsAll(s.connections, KeepConnection(id));
  }

  /** The cascade is complete: no surviving cable ends on a port of the
      removed device. */
  lemma RemoveCascadesToPorts(s: State, id: string)
    ensures forall c, n: nat :: c in RemoveDevice(s, id).connections ==>
      c.start != PortKey(id, n) && c.end != PortKey(id, n)
  {}

  /** The cascade can overreach: removing `dev-1` also drops a cable between
      two ports of `dev-12`, whose device survives. */
  lemma RemoveOverreachesOnPrefixIds(d12: Device, c: Connection)
    requires d12.id == ClockDeviceId(12)
    requires c.start == PortKey(ClockDeviceId(12), 3)
    ensures var r := RemoveDevice(State([d12], [c], None), ClockDeviceId(1));
      d12 in r.devices && r.connections == []
  {}

  /** Removal undoes an addition whose id is new to the state and included
      in no cable endpoint. */
  lemma RemoveUndoesAdd(s: State, key: ModelKey, newId: string)
    requires forall i :: 0 <= i < |s.devices| ==> s.devices[i].id != newId
    requires forall i :: 0 <= i < |s.connections| ==> !Touches(s.connections[i], newId)
    ensures RemoveDevice(AddDevice(s, key, newId), newId) == s
  {
    var d := AddDevice(s, key, newId).devices[|s.devices|];
    assert AddDevice(s, key, newId).devices == s.devices + [d];
    FilterConcat(s.devices, [d], KeepDevice(newId));
    FilterKeepsAll(s.devices, KeepDevice(newId));
    FilterKeepsAll(s.connections, KeepConnection(newId));
    assert Filter([d], KeepDevice(newId)) == [];
  }

  /** Removal leaves the armed key armed even when it names a port of the
      removed device; the next click then creates a cable from that gone
      port. */
  lemma RemoveKeepsStalePending(s: State, id: string, n: nat, key: string, connId: nat)
    requires s.pending == Some(PortKey(id, n))
    ensures var r := ClickPort(RemoveDevice(s, id), key, connId);
      && (forall d :: d in r.devices ==> d.id != id)
      && |r.connections| >= 1
      && r.connections[|r.connections| - 1] == Connection(connId, PortKey(id, n), key, CableColor)
  {}
}
