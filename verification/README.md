# Network rack editor — state transitions

A model of the editing core of the network rack app
(`network-rack-app/src/App.jsx`): a 42-unit rack onto which catalog hardware
(a firewall, a 24-port switch, a 2U server) is placed, dragged to another
unit, removed, and cabled port to port by clicking a first port and then a
second one.

The React handlers are read as pure transitions of one editor state
`State(devices, connections, pending)`, where `pending` is the port key armed
by a first click (`Option<string>`). Every `setX(...)` in a handler is the
next value of field `X`, and each handler is one atomic step.

- `strings.dfy` (`Strings`): `String.prototype.includes` (`Contains`), and
  the decimal text of a number in a template literal (`Decimal`), with its
  inverse `ParseDecimal`.
- `seqs.dfy` (`Seqs`): `Array.prototype.filter` (`Filter`) with what it keeps
  and the fact that it keeps the survivors in order.
- `rack.dfy` (`Rack`): the catalog, `Device`, `Port`, `Connection`, `State`;
  the port key `${dev.id}-p${p.id}`; and the four transitions `AddDevice`,
  `RemoveDevice`, `DragEnd` and `ClickPort`. `ClickRenderedPort` is a click
  on one of the drawn port squares.
- `rack_properties.dfy` (`RackProperties`): lemmas relating the
  transitions. They cover the invariant every reachable state keeps, how a
  run of clicks pairs up into cables, what drags and removals change, and
  what port keys identify.

How this code behaves, as modelled (an idealised rack engine would differ
on each point, and the model follows the code):

- Every added device lands on unit 1. There is no search for a free unit
  and no overlap check (`AddIgnoresOccupancy`, `DragAllowsOverlap`).
- A drag clamps the proposed unit into 1..42 without regard to the device's
  height, so a 2U server can reach unit 43 (`DragOverhangsTop`). The drag
  rewrites `startU` of every device with the id and touches nothing else.
- Clicking the armed port again does not cancel the selection. It creates a
  cable from the port to itself (`SamePortTwiceMakesSelfCable`). Duplicate
  cables are not prevented.
- Removal drops every cable one of whose endpoint keys *includes* the device
  id as a substring. This always reaches the device's own ports
  (`RemoveCascadesToPorts`). It can also reach another device whose id
  extends the removed one, e.g. `dev-1` and `dev-12`
  (`RemoveOverreachesOnPrefixIds`). With ids `dev-${Date.now()}` of equal
  digit count the test is exact (`ClockIdCascadeExact`).
- Removal does not clear the armed key. The next click then creates a cable
  from a port whose device is gone (`RemoveKeepsStalePending`).
- `!pendingConn` is JavaScript truthiness: the empty string counts as
  "nothing armed" (`Truthy`). Armed keys are always port keys, never empty,
  so on every reachable state this is the same as "nothing armed"
  (`PendingTruthyIffArmed`, `ReachableWellFormed`).

## Model

| member | source | states |
|---|---|---|
| Rack.AddDevice | network-rack-app/src/App.jsx:31-37 | exactly one device is appended after the unchanged existing ones. It carries the given id, sits at `startU` 1, and copies the model's name, size, ports and color. Its port records number 1..ports. Connections and the armed key are unchanged |
| Rack.MakePorts | network-rack-app/src/App.jsx:36 | the port list has length `n` and the record at position `i` has id `i + 1` |
| Rack.ClockDeviceId | network-rack-app/src/App.jsx:33 | a clock-derived id is `dev-` followed by the decimal text of the clock reading |
| Rack.RemoveDevice | network-rack-app/src/App.jsx:41-44 | a device survives iff its id differs from `id`. A connection survives iff neither endpoint key includes `id`. Every occurrence of a survivor is kept (multiset counts unchanged, nothing added), survivors keep their relative order (subsequence), and the armed key is unchanged |
| Rack.ClampUnit | network-rack-app/src/App.jsx:50 | the unit is always within 1..42; an in-range proposal is kept; below 1 gives 1, above 42 gives 42 |
| Rack.MoveMatching | network-rack-app/src/App.jsx:52 | the list keeps its length and ids. Only `startU` can change, and it becomes the new unit exactly on matching ids |
| Rack.DragEnd | network-rack-app/src/App.jsx:50-52 | every device with the id lands on the clamped unit, which is within 1..42, with all other fields unchanged. Other devices, connections and the armed key are untouched |
| Rack.ClickPort | network-rack-app/src/App.jsx:101-107 | with nothing armed (null or empty key), the clicked key is armed and connections are unchanged. With a key armed, exactly one cable {pending, clicked, `#38bdf8`} is appended and the selection clears. Devices never change |
| Rack.PortKey | network-rack-app/src/App.jsx:102 | the key is the device id, then `-p`, then the decimal port id |
| Rack.Catalog | network-rack-app/src/App.jsx:5-9 | the three catalog entries with their exact name, size, port count and color; every model is 1 or 2 units tall and has ports |
| Rack.Truthy | network-rack-app/src/App.jsx:103 | `null` and the empty key are falsy, every non-empty key is truthy, as JavaScript evaluates `!pendingConn` |
| Rack.RenderedPorts | network-rack-app/src/App.jsx:98 | the drawn ports are a prefix of the port records: all of them when there are fewer than 16, otherwise exactly the first 16 |
| Rack.ClickRenderedPort | network-rack-app/src/App.jsx:98-107 | a click on a drawn square acts on the key of that device and one of its first 16 port records, as `ClickPort` describes |
| Strings.ContainsIffOccurs | network-rack-app/src/App.jsx:43 | `includes` holds iff the searched text occurs at some position |
| Strings.ContainsInfix | network-rack-app/src/App.jsx:43 | a string includes each of its infixes |
| Strings.Decimal | network-rack-app/src/App.jsx:102 | a number's text is non-empty, all digits, and without a leading zero unless the number is 0 |
| Strings.DecimalRoundTrip | network-rack-app/src/App.jsx:102 | reading a number's decimal text gives the number back |
| Strings.DecimalInjective | network-rack-app/src/App.jsx:102 | distinct numbers have distinct decimal texts |
| Seqs.Filter | network-rack-app/src/App.jsx:42-43 | the result's elements come from the input and pass the test, and every element that passes is in the result |
| Seqs.FilterCount | network-rack-app/src/App.jsx:42-43 | after filtering, an element that passes occurs exactly as often as before and one that fails does not occur |
| Seqs.FilterCounts | network-rack-app/src/App.jsx:42-43 | every element of the input that passes keeps its number of occurrences, every one that fails has none, and the result's multiset is contained in the input's |
| Seqs.FilterIsSubsequence | network-rack-app/src/App.jsx:42-43 | the filtered list is the input with elements deleted, order preserved |
| Seqs.FilterConcat | network-rack-app/src/App.jsx:42-43 | filtering a concatenation is concatenating the filtered parts |
| Seqs.FilterKeepsAll | network-rack-app/src/App.jsx:42-43 | a list whose elements all pass the test is returned unchanged |
| Seqs.FilterIdempotent | network-rack-app/src/App.jsx:42-43 | filtering twice with the same test is filtering once |
| RackProperties.PortKeyInjective | network-rack-app/src/App.jsx:102 | equal port keys have equal device ids and equal port ids |
| RackProperties.PortKeyContainsDeviceId | network-rack-app/src/App.jsx:43 | every port key includes its device id as a substring |
| RackProperties.ClockIdCascadeExact | network-rack-app/src/App.jsx:43 | for `dev-${now}` ids with equal digit counts, a port key of one device includes another's id iff they are the same device (both directions) |
| RackProperties.ClockIdCascadeOverreach | network-rack-app/src/App.jsx:43 | a port key of `dev-12` includes the id `dev-1` |
| RackProperties.AddPreservesWellFormed | network-rack-app/src/App.jsx:31-37 | adding a device keeps every device within 1..42, copied from the catalog, with ports 1..n |
| RackProperties.DragPreservesWellFormed | network-rack-app/src/App.jsx:50-52 | a drag keeps every device well-formed |
| RackProperties.ClickPreservesWellFormed | network-rack-app/src/App.jsx:101-107 | a click keeps every cable endpoint and the armed key a port key, and every cable in the fixed color |
| RackProperties.StepPreservesWellFormed | network-rack-app/src/App.jsx:31-107 | each of the four transitions keeps a well-formed state well-formed |
| RackProperties.RunPreservesWellFormed | network-rack-app/src/App.jsx:31-107 | any sequence of transitions keeps a well-formed state well-formed |
| RackProperties.ReachableWellFormed | network-rack-app/src/App.jsx:12-14 | every state reachable from the empty editor is well-formed |
| RackProperties.PendingTruthyIffArmed | network-rack-app/src/App.jsx:103 | on a well-formed state, `pendingConn` is truthy iff a key is armed |
| RackProperties.ClicksPairUp | network-rack-app/src/App.jsx:101-107 | from idle, any run of clicks on non-empty keys turns clicks 2i and 2i+1 into one cable, in order, carrying the second click's id. The last key stays armed iff the number of clicks is odd. Devices are untouched |
| RackProperties.SamePortTwiceMakesSelfCable | network-rack-app/src/App.jsx:104-106 | clicking the same port twice from idle appends a cable from the port to itself and clears the selection |
| RackProperties.RenderedPortsOfWellFormed | network-rack-app/src/App.jsx:98 | the clickable ports of an added device are exactly ports 1..min(16, ports), in order |
| RackProperties.RenderedClickIsLowPortClick | network-rack-app/src/App.jsx:98-107 | on an added device, a click on the `slot`-th drawn square is the click on port `slot + 1`, which lies in 1..16 |
| RackProperties.SwitchUpperPortsUnclickable | network-rack-app/src/App.jsx:7 | the 24-port switch exposes only 16 clickable ports |
| RackProperties.AddIgnoresOccupancy | network-rack-app/src/App.jsx:35 | a new device overlaps any device already on unit 1 |
| RackProperties.FilterAfterMove | network-rack-app/src/App.jsx:42 | after moving the devices with an id, the removal filter for that id keeps exactly what it kept before the move |
| RackProperties.DragThenRemove | network-rack-app/src/App.jsx:41-52 | dragging a device and then removing it gives the same state as removing it |
| RackProperties.DragLastWins | network-rack-app/src/App.jsx:52 | dragging the same device twice equals the second drag alone, so a repeated drag is idempotent |
| RackProperties.DragsOfDistinctDevicesCommute | network-rack-app/src/App.jsx:52 | drags of different ids commute |
| RackProperties.DragAllowsOverlap | network-rack-app/src/App.jsx:52 | two devices dragged to the same unit overlap; no collision check rejects it |
| RackProperties.DragOverhangsTop | network-rack-app/src/App.jsx:50 | a 2U device dragged to 42 or above occupies unit 43, outside the rack |
| RackProperties.RemoveIdempotent | network-rack-app/src/App.jsx:41-44 | removing the same id twice is removing it once |
| RackProperties.RemoveAbsentIsNoOp | network-rack-app/src/App.jsx:41-44 | removing an id that no device has and no endpoint key includes leaves the state unchanged |
| RackProperties.RemoveCascadesToPorts | network-rack-app/src/App.jsx:43 | after removal no cable ends on any port key of the removed id |
| RackProperties.RemoveOverreachesOnPrefixIds | network-rack-app/src/App.jsx:43 | removing `dev-1` drops a cable of the surviving device `dev-12` |
| RackProperties.RemoveUndoesAdd | network-rack-app/src/App.jsx:31-44 | removing a freshly added device restores the previous state, when its id was new and no cable endpoint included it |
| RackProperties.RemoveKeepsStalePending | network-rack-app/src/App.jsx:41-44 | an armed key of the removed device stays armed, and the next click creates a cable from it, though no device with that id remains |

## Left out

- Persistence through `localStorage` and JSON (App.jsx:19-29) is I/O with no validation to model. A loaded state need not be well-formed. The transitions are defined on every state all the same.
- All rendering is presentation: JSX, cable drawing by `react-xarrows`, icons, the library drawer and its `showLibrary` flag, the status bar, and the highlight of the armed port (App.jsx:55-162). Only the `slice(0, 16)` that decides which ports are clickable is modelled.
- The screen geometry of a drag is left out: `getBoundingClientRect`, touch or mouse coordinates, and the floating-point `Math.ceil(relativeY / 40)` (App.jsx:47-50). The proposed unit is an integer parameter; only the clamp is modelled.
- `Date.now()` for device and cable ids (App.jsx:33, 105) reads the clock. Ids are parameters, and nothing claims they are unique, because the code does not ensure it.
- React's closure capture and update batching are left out. Each handler is one atomic transition on the current state.
- In the reachability model a click may name any (device id, port id) key. This covers every click the UI can produce; `ClickRenderedPort` and `RenderedPortsOfWellFormed` state which keys the UI actually offers.
- `Network Rack Designer.jsx` is a separate variant (with a free-slot search and a collision check) and is not part of this model.
