/** The exclusive owner of the hardware's AWDL peers, as a machine whose steps run from one
    call-out to the next. A call-out is a hardware command or the native cache completion;
    while it is open the environment may make any request of the owner. */
module Peers {
  import opened Common

  const MAXIMUM_PEERS := 16

  datatype PeerResult =
    | Ok
    | NotSupported
    | Invalid
    | Unready
    | OutOfMemory
    | OutOfResources
    | HardwareError
    | RecoveryRequired

  function Status(r: PeerResult): (status: IOReturn)
    ensures status == Success <==> r == Ok
  {
    match r
    case Ok => Success
    case NotSupported => Unsupported
    case Invalid => BadArgument
    case Unready => NotReady
    case OutOfMemory => NoMemory
    case OutOfResources => NoResources
    case HardwareError => Error
    case RecoveryRequired => Error
  }

  datatype Entry = Entry(address: Address, used: bool, cached: bool, traffic: bool, installed: bool, retiring: bool)

  const EMPTY := Entry(ZERO_ADDRESS, false, false, false, false, false)

  /** What an observer of the hardware and of the native family sees. */
  datatype Event =
    | Began(address: Address, add: bool)
    | Ended(address: Address, add: bool, result: PeerResult)
    | Completed(address: Address, add: bool, delivered: bool)
    | Asked(address: Address, authorized: bool)
    | Bound
    | HandedOff(addresses: set<Address>)
    | Deferred(what: Teardown)

  datatype Teardown = Disable | Close | Forget

  datatype State = State(
    entries: seq<Entry>,
    trafficPeer: Address,
    attached: bool,
    lastError: IOReturn,
    bound: bool,
    active: bool,
    fault: bool,
    busy: bool,
    closing: bool,
    shutdownPending: bool,
    disablePending: bool,
    abandonPending: bool,
    log: seq<Event>
  ) {
    predicate Resting() {
      !busy && !closing
    }

    function Log(e: Event): State {
      this.(log := log + [e])
    }

    function Put(i: nat, e: Entry): State
      requires i < |entries|
    {
      this.(entries := entries[i := e])
    }
  }

  function Empties(n: nat): (es: seq<Entry>)
    ensures |es| == n && forall i :: 0 <= i < n ==> es[i] == EMPTY
  {
    seq(n, _ => EMPTY)
  }

  const START := State(Empties(MAXIMUM_PEERS), ZERO_ADDRESS, false, Success,
                       false, false, false, false, false, false, false, false, [])

  /** The values that the owner reads from its surroundings when a request arrives. */
  datatype Query = Query(canPost: bool, local: Option<Address>, capacity: nat)

  /** A traffic registration; `wellFormed` stands for its version and name checks. */
  datatype Registration = Registration(wellFormed: bool, active: bool, address: Address)

  datatype Request =
    | Bind(native: bool, address: Address, current: Option<Address>, hardware: nat)
    | Enable(value: bool, hardware: nat)
    | Revoke
    | Shutdown
    | Abandon
    | Cache(operation: nat, address: Address, query: Query)
    | Traffic(registration: Registration, query: Query)
    | Ask(address: Address)

  /** Where the owner waits for its surroundings, and what it does when they answer. */
  datatype Pc =
    | Done(result: IOReturn)
    | AddingForCache(index: nat, address: Address)
    | AddingForTraffic(index: nat, address: Address)
    | RemovingForCache(index: nat, address: Address)
    | RemovingForTraffic(index: nat)
    | Posting(index: nat, address: Address, add: bool, previous: Entry)
    | Unwinding(index: nat)
    | Clearing(index: nat, unbind: bool, failure: IOReturn, reply: Option<IOReturn>)

  datatype Point = Point(state: State, pc: Pc)

  // -------------------------------------------------------------------------
  // The table
  // -------------------------------------------------------------------------

  function FindFrom(entries: seq<Entry>, a: Address, from: nat): (i: Option<nat>)
    requires from <= |entries|
    ensures i.Some? ==> from <= i.value < |entries| && entries[i.value].used && entries[i.value].address == a
    ensures i.Some? ==> forall k :: from <= k < i.value ==> !(entries[k].used && entries[k].address == a)
    ensures i.None? ==> forall k :: from <= k < |entries| ==> !(entries[k].used && entries[k].address == a)
    decreases |entries| - from
  {
    if from == |entries| then None
    else if entries[from].used && entries[from].address == a then Some(from)
    else FindFrom(entries, a, from + 1)
  }

  function Find(entries: seq<Entry>, a: Address): (i: Option<nat>)
    ensures i.Some? ==> i.value < |entries| && entries[i.value].used && entries[i.value].address == a
    ensures i.None? ==> forall k :: 0 <= k < |entries| ==> !(entries[k].used && entries[k].address == a)
  {
    FindFrom(entries, a, 0)
  }

  function UsedFrom(entries: seq<Entry>, from: nat): nat
    requires from <= |entries|
    decreases |entries| - from
  {
    if from == |entries| then 0
    else (if entries[from].used then 1 else 0) + UsedFrom(entries, from + 1)
  }

  function FreeFrom(entries: seq<Entry>, from: nat): (i: Option<nat>)
    requires from <= |entries|
    ensures i.Some? ==> from <= i.value < |entries| && !entries[i.value].used
    decreases |entries| - from
  {
    if from == |entries| then None
    else if !entries[from].used then Some(from)
    else FreeFrom(entries, from + 1)
  }

  predicate Ready(s: State, hardware: nat) {
    !s.fault && hardware != 0
  }

  function Capacity(s: State, hardware: nat): nat {
    if !s.bound || s.fault then 0
    else if hardware > MAXIMUM_PEERS then MAXIMUM_PEERS
    else hardware
  }

  predicate IsLocal(s: State, a: Address, local: Option<Address>) {
    !s.attached || local.None? || !Unicast(local.value) || local.value == a
  }

  predicate Authorized(s: State, a: Address) {
    && s.bound && s.active && !s.fault && !s.closing && Unicast(a)
    && var i := Find(s.entries, a);
       i.Some? && s.entries[i.value].installed && !s.entries[i.value].retiring
       && (s.entries[i.value].cached || s.entries[i.value].traffic)
  }

  function Installed(entries: seq<Entry>): set<Address> {
    set i | 0 <= i < |entries| && entries[i].used && entries[i].installed :: entries[i].address
  }

  // -------------------------------------------------------------------------
  // Teardown
  // -------------------------------------------------------------------------

  /** The pc names a slot of the table. */
  predicate InTable(pc: Pc) {
    !pc.Done? ==> pc.index < MAXIMUM_PEERS
  }

  /** Bounds the call-outs that a request still has to make. */
  function Rank(pc: Pc): nat {
    if pc.Done? then 0
    else if pc.Clearing? then (if pc.index < MAXIMUM_PEERS then 17 - pc.index else 0)
    else if pc.Unwinding? || pc.RemovingForTraffic? then 21
    else if pc.Posting? then 22
    else 23
  }

  /** The first slot from `i` on that holds a hardware peer. */
  function NextInstalled(es: seq<Entry>, i: nat): (j: nat)
    requires i <= |es|
    ensures i <= j <= |es| && (j < |es| ==> es[j].used && es[j].installed)
    ensures forall k :: i <= k < j ==> !(es[k].used && es[k].installed)
    decreases |es| - i
  {
    if i == |es| || (es[i].used && es[i].installed) then i else NextInstalled(es, i + 1)
  }

  /** The table with slots `i` to `j` emptied. */
  function Swept(es: seq<Entry>, i: nat, j: nat): (fs: seq<Entry>)
    requires i <= j <= |es|
    ensures |fs| == |es|
    ensures forall k :: 0 <= k < |es| ==> fs[k] == if i <= k < j then EMPTY else es[k]
  {
    seq(|es|, k requires 0 <= k < |es| => if i <= k < j then EMPTY else es[k])
  }

  /** Runs `clear` from slot `i` to the next hardware removal, or to its end. */
  function ClearFrom(s: State, i: nat, unbind: bool, failure: IOReturn, reply: Option<IOReturn>): (p: Point)
    requires |s.entries| == MAXIMUM_PEERS && i <= MAXIMUM_PEERS
    ensures |p.state.entries| == MAXIMUM_PEERS && InTable(p.pc) && Rank(p.pc) <= 17 - i
  {
    var j := NextInstalled(s.entries, i);
    ClearAt(s.(entries := Swept(s.entries, i, j)), j, unbind, failure, reply)
  }

  function ClearAt(s: State, j: nat, unbind: bool, failure: IOReturn, reply: Option<IOReturn>): (p: Point)
    requires |s.entries| == MAXIMUM_PEERS && j <= MAXIMUM_PEERS
    ensures |p.state.entries| == MAXIMUM_PEERS && InTable(p.pc) && Rank(p.pc) <= 17 - j
  {
    if j == MAXIMUM_PEERS then ClearEnd(s, unbind, failure, reply)
    else Point(s.Log(Began(s.entries[j].address, false)), Clearing(j, unbind, failure, reply))
  }

  function ClearEnd(s: State, unbind: bool, failure: IOReturn, reply: Option<IOReturn>): Point {
    var t := s.(trafficPeer := ZERO_ADDRESS, lastError := failure, fault := s.fault || failure != Success);
    Point(Unpended(t, unbind || s.shutdownPending || s.abandonPending),
          Done(if reply.Some? then reply.value else failure))
  }

  /** The end of `clear`: pending teardowns are done with. */
  function Unpended(s: State, unbind: bool): State {
    s.(attached := s.attached && !unbind, bound := s.bound && !unbind,
       shutdownPending := false, disablePending := false, abandonPending := false, closing := false)
  }

  /** `reply` is what the interrupted call returns; `None` stands for the last error. */
  function Clear(s: State, unbind: bool, reply: Option<IOReturn>): (p: Point)
    requires |s.entries| == MAXIMUM_PEERS
    ensures |p.state.entries| == MAXIMUM_PEERS && InTable(p.pc) && Rank(p.pc) <= 17
  {
    if s.closing then
      Point(s.(shutdownPending := s.shutdownPending || unbind),
            Done(if reply.Some? then reply.value else s.lastError))
    else ClearFrom(s.(closing := true, active := false), 0, unbind, Success, reply)
  }

  function Forgotten(s: State): State {
    s.(entries := Empties(MAXIMUM_PEERS), trafficPeer := ZERO_ADDRESS, attached := false, bound := false,
       abandonPending := false, shutdownPending := false, disablePending := false)
     .Log(HandedOff(Installed(s.entries)))
  }

  function AbandonNow(s: State): State {
    var t := s.(active := false);
    if t.busy || t.closing then t.(abandonPending := true).Log(Deferred(Forget)) else Forgotten(t)
  }

  /** The transaction guard's destructor. */
  function EndTransaction(s: State, result: IOReturn): (p: Point)
    requires |s.entries| == MAXIMUM_PEERS
    ensures |p.state.entries| == MAXIMUM_PEERS && InTable(p.pc) && Rank(p.pc) <= 17
  {
    var t := s.(busy := false);
    if t.abandonPending then Point(AbandonNow(t), Done(result))
    else if t.shutdownPending then Clear(t, true, Some(result))
    else if t.disablePending then Clear(t, false, Some(result))
    else Point(t, Done(result))
  }

  // -------------------------------------------------------------------------
  // Requests
  // -------------------------------------------------------------------------

  /** Runs a request up to its first call-out, or to its end. */
  function Begin(s: State, r: Request): (p: Point)
    requires |s.entries| == MAXIMUM_PEERS
    ensures |p.state.entries| == MAXIMUM_PEERS && InTable(p.pc)
  {
    match r
    case Bind(native, a, current, hardware) => BeginBind(s, native, a, current, hardware)
    case Enable(value, hardware) => BeginEnable(s, value, hardware)
    case Revoke => Point(s.(active := false), Done(Success))
    case Shutdown => BeginShutdown(s)
    case Abandon => Point(AbandonNow(s), Done(Success))
    case Cache(operation, a, q) => BeginCache(s, operation, a, q)
    case Traffic(d, q) => BeginTraffic(s, d, q)
    case Ask(a) => Point(s.Log(Asked(a, Authorized(s, a))), Done(Success))
  }

  function BeginBind(s: State, native: bool, a: Address, current: Option<Address>, hardware: nat): Point {
    if s.busy || s.closing || s.bound then Point(s, Done(Busy))
    else if !native || !Unicast(a) || current != Some(a) then Point(s, Done(BadArgument))
    else if hardware == 0 then Point(s, Done(NotReady))
    else
      Point(s.(attached := true, bound := true, active := false, fault := false, lastError := Success).Log(Bound),
            Done(Success))
  }

  function BeginEnable(s: State, value: bool, hardware: nat): (p: Point)
    requires |s.entries| == MAXIMUM_PEERS
    ensures |p.state.entries| == MAXIMUM_PEERS && InTable(p.pc)
  {
    if !value then
      var t := s.(active := false);
      if t.busy then Point(t.(disablePending := true).Log(Deferred(Disable)), Done(Success))
      else Clear(t, false, None)
    else if s.busy || s.closing then Point(s, Done(Busy))
    else if !s.bound || !s.attached || !Ready(s, hardware) then Point(s, Done(NotReady))
    else Point(s.(active := true), Done(Success))
  }

  function BeginShutdown(s: State): (p: Point)
    requires |s.entries| == MAXIMUM_PEERS
    ensures |p.state.entries| == MAXIMUM_PEERS && InTable(p.pc)
  {
    var t := s.(active := false);
    if t.busy || t.closing then Point(t.(shutdownPending := true).Log(Deferred(Close)), Done(Success))
    else Clear(t, true, Some(Success))
  }

  datatype Slot = Held(index: nat) | Fresh(index: nat) | Refused(result: IOReturn)

  /** What `install` finds in the table before it calls the hardware. */
  function Reserve(s: State, a: Address, hardware: nat): (slot: Slot)
    ensures slot.Held? ==> Find(s.entries, a) == Some(slot.index)
                           && s.entries[slot.index].installed && !s.entries[slot.index].retiring
    ensures slot.Fresh? ==> Find(s.entries, a) == None && slot.index < |s.entries| && !s.entries[slot.index].used
                            && s.bound && !s.fault
    ensures slot.Refused? ==> slot.result != Success
  {
    var i := Find(s.entries, a);
    if i.Some? then
      if s.entries[i.value].installed && !s.entries[i.value].retiring then Held(i.value) else Refused(NotReady)
    else
      var free := FreeFrom(s.entries, 0);
      if free.None? || UsedFrom(s.entries, 0) >= Capacity(s, hardware) then Refused(NoResources)
      else Fresh(free.value)
  }

  function StartAdd(s: State, i: nat, a: Address): (t: State)
    requires i < |s.entries|
    ensures |t.entries| == |s.entries|
  {
    s.Put(i, s.entries[i].(used := true, address := a)).Log(Began(a, true))
  }

  function StartRemove(s: State, i: nat): (t: State)
    requires i < |s.entries|
    ensures |t.entries| == |s.entries|
  {
    s.Put(i, s.entries[i].(retiring := true)).Log(Began(s.entries[i].address, false))
  }

  function BeginCache(s: State, operation: nat, a: Address, q: Query): (p: Point)
    requires |s.entries| == MAXIMUM_PEERS
    ensures |p.state.entries| == MAXIMUM_PEERS && InTable(p.pc)
  {
    if !s.bound || !s.active || !s.attached || !q.canPost then Point(s, Done(NotReady))
    else if s.busy || s.closing then Point(s, Done(Busy))
    else if !Unicast(a) || IsLocal(s, a, q.local) then Point(s, Done(BadArgument))
    else if operation != 0 && operation != 2 && operation != 6 then Point(s, Done(Unsupported))
    else if operation == 2 then CacheRemove(s.(busy := true), a)
    else if !Ready(s, q.capacity) then Point(s, Done(NotReady))
    else CacheAdd(s.(busy := true), a, q.capacity)
  }

  function CacheAdd(s: State, a: Address, hardware: nat): (p: Point)
    requires |s.entries| == MAXIMUM_PEERS
    ensures |p.state.entries| == MAXIMUM_PEERS && InTable(p.pc)
  {
    match Reserve(s, a, hardware)
    case Refused(result) => EndTransaction(s, result)
    case Held(i) => CacheInstalled(s, i, a, s.entries[i])
    case Fresh(i) => Point(StartAdd(s, i, a), AddingForCache(i, a))
  }

  function CacheInstalled(s: State, i: nat, a: Address, previous: Entry): (p: Point)
    requires |s.entries| == MAXIMUM_PEERS && i < MAXIMUM_PEERS
    ensures |p.state.entries| == MAXIMUM_PEERS && InTable(p.pc) && Rank(p.pc) <= 22
  {
    if !s.active || s.shutdownPending then EndTransaction(s, NotReady)
    else Point(s.Put(i, s.entries[i].(cached := true)), Posting(i, a, true, previous))
  }

  function CacheRemove(s: State, a: Address): (p: Point)
    requires |s.entries| == MAXIMUM_PEERS
    ensures |p.state.entries| == MAXIMUM_PEERS && InTable(p.pc)
  {
    var i := Find(s.entries, a);
    if i.None? then CacheRemoved(s, a)
    else
      var t := s.Put(i.value, s.entries[i.value].(cached := false));
      if t.entries[i.value].traffic then CacheRemoved(t, a)
      else Point(StartRemove(t, i.value), RemovingForCache(i.value, a))
  }

  function CacheRemoved(s: State, a: Address): (p: Point)
    requires |s.entries| == MAXIMUM_PEERS
    ensures |p.state.entries| == MAXIMUM_PEERS && InTable(p.pc) && Rank(p.pc) <= 22
  {
    if !s.active || s.shutdownPending then EndTransaction(s, NotReady)
    else Point(s, Posting(0, a, false, EMPTY))
  }

  function BeginTraffic(s: State, d: Registration, q: Query): (p: Point)
    requires |s.entries| == MAXIMUM_PEERS
    ensures |p.state.entries| == MAXIMUM_PEERS && InTable(p.pc)
  {
    if !s.bound || !s.active then Point(s, Done(NotReady))
    else if s.busy || s.closing then Point(s, Done(Busy))
    else if !d.wellFormed || (d.active && (!Unicast(d.address) || IsLocal(s, d.address, q.local))) then
      Point(s, Done(BadArgument))
    else if d.active && !Ready(s, q.capacity) then Point(s, Done(NotReady))
    else if !d.active then TrafficChosen(s.(busy := true), None, ZERO_ADDRESS)
    else TrafficAdd(s.(busy := true), d.address, q.capacity)
  }

  function TrafficAdd(s: State, a: Address, hardware: nat): (p: Point)
    requires |s.entries| == MAXIMUM_PEERS
    ensures |p.state.entries| == MAXIMUM_PEERS && InTable(p.pc)
  {
    match Reserve(s, a, hardware)
    case Refused(result) => EndTransaction(s, result)
    case Held(i) => TrafficInstalled(s, i, a)
    case Fresh(i) => Point(StartAdd(s, i, a), AddingForTraffic(i, a))
  }

  function TrafficInstalled(s: State, i: nat, a: Address): (p: Point)
    requires |s.entries| == MAXIMUM_PEERS && i < MAXIMUM_PEERS
    ensures |p.state.entries| == MAXIMUM_PEERS && InTable(p.pc) && Rank(p.pc) <= 22
  {
    if !s.active || s.shutdownPending then EndTransaction(s, NotReady)
    else TrafficChosen(s.Put(i, s.entries[i].(traffic := true)), Some(i), a)
  }

  /** The traffic reference moves to `a`; the entry that loses it may lose its last owner. */
  function TrafficChosen(s: State, next: Option<nat>, a: Address): (p: Point)
    requires |s.entries| == MAXIMUM_PEERS
    ensures |p.state.entries| == MAXIMUM_PEERS && InTable(p.pc) && Rank(p.pc) <= 22
  {
    var was := Find(s.entries, s.trafficPeer);
    var t := s.(trafficPeer := a);
    if was.None? || was == next then TrafficMoved(t)
    else
      var u := t.Put(was.value, t.entries[was.value].(traffic := false));
      if u.entries[was.value].cached then TrafficMoved(u)
      else Point(StartRemove(u, was.value), RemovingForTraffic(was.value))
  }

  function TrafficMoved(s: State): (p: Point)
    requires |s.entries| == MAXIMUM_PEERS
    ensures |p.state.entries| == MAXIMUM_PEERS && InTable(p.pc) && Rank(p.pc) <= 17
  {
    EndTransaction(s, if s.active && !s.shutdownPending then Success else NotReady)
  }

  // -------------------------------------------------------------------------
  // Answers
  // -------------------------------------------------------------------------

  /** A peer that needs recovery is kept, so that it is still removed. */
  function AfterAdd(e: Entry, result: PeerResult): Entry {
    if result == Ok then e.(installed := true)
    else if result == RecoveryRequired then e.(installed := true, retiring := true)
    else EMPTY
  }

  /** The table after the hardware has answered an add. */
  function FinishAdd(s: State, i: nat, a: Address, result: PeerResult): (t: State)
    requires i < |s.entries|
    ensures |t.entries| == |s.entries|
  {
    s.(entries := s.entries[i := AfterAdd(s.entries[i], result)], lastError := Status(result),
       fault := s.fault || result == RecoveryRequired).Log(Ended(a, true, result))
  }

  /** The table after the hardware has answered a removal outside `clear`. */
  function FinishRemove(s: State, i: nat, result: PeerResult): (t: State)
    requires i < |s.entries|
    ensures |t.entries| == |s.entries|
  {
    s.(entries := if result == Ok then s.entries[i := EMPTY] else s.entries,
       lastError := Status(result), fault := s.fault || result != Ok)
     .Log(Ended(s.entries[i].address, false, result))
  }

  /** A removal answered inside `clear`: the slot is emptied either way, and a peer that the
      hardware failed to remove is left to the hardware. */
  function FinishClear(s: State, i: nat, result: PeerResult): (t: State)
    requires i < |s.entries|
    ensures |t.entries| == |s.entries|
  {
    var a := s.entries[i].address;
    var t := s.Put(i, EMPTY).Log(Ended(a, false, result));
    if result == Ok then t else t.Log(HandedOff({a}))
  }

  /** Runs on from a call-out that answered `result`; for a completion `Ok` means delivered. */
  function Resume(s: State, pc: Pc, result: PeerResult): (p: Point)
    requires |s.entries| == MAXIMUM_PEERS && !pc.Done? && InTable(pc)
    ensures |p.state.entries| == MAXIMUM_PEERS
  {
    match pc
    case AddingForCache(i, a) => CacheAdded(FinishAdd(s, i, a, result), i, a, result)
    case AddingForTraffic(i, a) => TrafficAdded(FinishAdd(s, i, a, result), i, a, result)
    case RemovingForCache(i, a) => CacheCleared(FinishRemove(s, i, result), i, a, result)
    case RemovingForTraffic(i) => TrafficCleared(FinishRemove(s, i, result), result)
    case Posting(i, a, add, previous) => CachePosted(s.Log(Completed(a, add, result == Ok)), i, add, previous, result)
    case Unwinding(i) => EndTransaction(FinishRemove(s, i, result), NotReady)
    case Clearing(i, unbind, failure, reply) =>
      ClearFrom(FinishClear(s, i, result), i + 1, unbind, if result == Ok then failure else Status(result), reply)
  }

  lemma ResumeAdvances(s: State, pc: Pc, result: PeerResult)
    requires |s.entries| == MAXIMUM_PEERS && !pc.Done? && InTable(pc)
    ensures InTable(Resume(s, pc, result).pc) && Rank(Resume(s, pc, result).pc) < Rank(pc)
  {
    match pc
    case AddingForCache(i, a) => assert Resume(s, pc, result) == CacheAdded(FinishAdd(s, i, a, result), i, a, result);
    case AddingForTraffic(i, a) =>
    case RemovingForCache(i, a) =>
    case RemovingForTraffic(i) =>
    case Posting(i, a, add, previous) =>
    case Unwinding(i) =>
    case Clearing(i, unbind, failure, reply) => assert Rank(Resume(s, pc, result).pc) <= 17 - (i + 1);
  }

  function CacheAdded(s: State, i: nat, a: Address, result: PeerResult): (p: Point)
    requires |s.entries| == MAXIMUM_PEERS && i < MAXIMUM_PEERS
    ensures |p.state.entries| == MAXIMUM_PEERS && InTable(p.pc) && Rank(p.pc) <= 22
  {
    if result == Ok then CacheInstalled(s, i, a, EMPTY) else EndTransaction(s, s.lastError)
  }

  function TrafficAdded(s: State, i: nat, a: Address, result: PeerResult): (p: Point)
    requires |s.entries| == MAXIMUM_PEERS && i < MAXIMUM_PEERS
    ensures |p.state.entries| == MAXIMUM_PEERS && InTable(p.pc) && Rank(p.pc) <= 22
  {
    if result == Ok then TrafficInstalled(s, i, a) else EndTransaction(s, s.lastError)
  }

  function CacheCleared(s: State, i: nat, a: Address, result: PeerResult): (p: Point)
    requires |s.entries| == MAXIMUM_PEERS && i < MAXIMUM_PEERS
    ensures |p.state.entries| == MAXIMUM_PEERS && InTable(p.pc) && Rank(p.pc) <= 22
  {
    if result == Ok then CacheRemoved(s, a) else EndTransaction(s, s.lastError)
  }

  function TrafficCleared(s: State, result: PeerResult): (p: Point)
    requires |s.entries| == MAXIMUM_PEERS
    ensures |p.state.entries| == MAXIMUM_PEERS && InTable(p.pc) && Rank(p.pc) <= 17
  {
    if result == Ok then TrafficMoved(s) else EndTransaction(s, s.lastError)
  }

  function CachePosted(s: State, i: nat, add: bool, previous: Entry, result: PeerResult): (p: Point)
    requires |s.entries| == MAXIMUM_PEERS && i < MAXIMUM_PEERS
    ensures |p.state.entries| == MAXIMUM_PEERS && InTable(p.pc) && Rank(p.pc) <= 21
  {
    if result == Ok then EndTransaction(s, Success)
    else if add then UndoCache(s, i, previous)
    else EndTransaction(s, NotReady)
  }

  function UndoCache(s: State, i: nat, previous: Entry): (p: Point)
    requires |s.entries| == MAXIMUM_PEERS && i < MAXIMUM_PEERS
    ensures |p.state.entries| == MAXIMUM_PEERS && InTable(p.pc) && Rank(p.pc) <= 21
  {
    var t := s.Put(i, s.entries[i].(cached := previous.cached));
    if !previous.installed && !t.entries[i].traffic then Point(StartRemove(t, i), Unwinding(i))
    else EndTransaction(t, NotReady)
  }

  // -------------------------------------------------------------------------
  // Whole calls and whole runs
  // -------------------------------------------------------------------------

  /** One answer of the surroundings: the result of a call-out and the requests that were
      made of the owner while the call-out was open. */
  datatype Answer = Answer(result: PeerResult, requests: seq<Request>)

  const QUIET := Answer(Ok, [])

  function CallOut(s: State, requests: seq<Request>): (t: State)
    requires |s.entries| == MAXIMUM_PEERS
    ensures |t.entries| == MAXIMUM_PEERS
    decreases |requests|
  {
    if requests == [] then s else CallOut(Begin(s, requests[0]).state, requests[1..])
  }

  function First(answers: seq<Answer>): Answer {
    if answers == [] then QUIET else answers[0]
  }

  function Rest(answers: seq<Answer>): seq<Answer> {
    if answers == [] then [] else answers[1..]
  }

  /** Answers the call-outs in order; an answer that is missing is `QUIET`. */
  function Drive(p: Point, answers: seq<Answer>): (q: Point)
    requires |p.state.entries| == MAXIMUM_PEERS && InTable(p.pc)
    ensures |q.state.entries| == MAXIMUM_PEERS && q.pc.Done?
    decreases Rank(p.pc)
  {
    if p.pc.Done? then p
    else
      var s := CallOut(p.state, First(answers).requests);
      ResumeAdvances(s, p.pc, First(answers).result);
      Drive(Resume(s, p.pc, First(answers).result), Rest(answers))
  }

  datatype Visit = Visit(request: Request, answers: seq<Answer>)

  function Run(s: State, visits: seq<Visit>): (t: State)
    requires |s.entries| == MAXIMUM_PEERS
    ensures |t.entries| == MAXIMUM_PEERS
    decreases |visits|
  {
    if visits == [] then s
    else Run(Drive(Begin(s, visits[0].request), visits[0].answers).state, visits[1..])
  }

  // -------------------------------------------------------------------------
  // What the log says
  // -------------------------------------------------------------------------

  /** The peers that the hardware may hold, going by its own answers. */
  function Holds(log: seq<Event>): set<Address> {
    if log == [] then {}
    else
      var before, e := Holds(log[..|log| - 1]), log[|log| - 1];
      if e.Ended? && e.add && (e.result == Ok || e.result == RecoveryRequired) then before + {e.address}
      else if e.Ended? && !e.add && e.result == Ok then before - {e.address}
      else before
  }

  /** The peers that were left to the hardware and that it has not removed since. */
  function Orphans(log: seq<Event>): set<Address> {
    if log == [] then {}
    else
      var before, e := Orphans(log[..|log| - 1]), log[|log| - 1];
      if e.HandedOff? then before + e.addresses
      else if e.Ended? && !e.add && e.result == Ok then before - {e.address}
      else before
  }

  /** The latest hardware event about a peer. */
  function Latest(log: seq<Event>, a: Address): Option<Event> {
    if log == [] then None
    else
      var e := log[|log| - 1];
      if (e.Began? || e.Ended?) && e.address == a then Some(e) else Latest(log[..|log| - 1], a)
  }

  /** Some removal failed or some add needs recovery, and nobody has bound since. */
  predicate Faulted(log: seq<Event>) {
    if log == [] then false
    else
      var e := log[|log| - 1];
      if e.Bound? then false
      else if e.Ended? && (if e.add then e.result == RecoveryRequired else e.result != Ok) then true
      else Faulted(log[..|log| - 1])
  }

  /** An event is lawful after the events before it: an authorized peer's latest hardware
      event is its successful add, and no add is issued while faulted. */
  predicate Lawful(log: seq<Event>, e: Event) {
    && (e.Asked? && e.authorized ==> Latest(log, e.address) == Some(Ended(e.address, true, Ok)))
    && (e.Asked? && e.authorized ==> !Faulted(log))
    && (e.Began? && e.add ==> !Faulted(log))
  }

  predicate LawfulLog(log: seq<Event>) {
    log == [] || (LawfulLog(log[..|log| - 1]) && Lawful(log[..|log| - 1], log[|log| - 1]))
  }

  lemma Logged(log: seq<Event>, e: Event)
    ensures (log + [e])[..|log|] == log && (log + [e])[|log|] == e
    ensures LawfulLog(log + [e]) == (LawfulLog(log) && Lawful(log, e))
  {
    assert (log + [e])[..|log|] == log;
  }

  // -------------------------------------------------------------------------
  // The invariant
  // -------------------------------------------------------------------------

  /** The shape of the table; `adding` is the slot whose add is in flight, or -1. */
  predicate Table(es: seq<Entry>, adding: int) {
    && |es| == MAXIMUM_PEERS
    && (forall i :: 0 <= i < |es| ==> !es[i].used ==> es[i] == EMPTY)
    && (forall i :: 0 <= i < |es| ==> es[i].used ==> Unicast(es[i].address))
    && (forall i, j :: 0 <= i < j < |es| ==> es[i].used && es[j].used ==> es[i].address != es[j].address)
    && (forall i :: 0 <= i < |es| ==> es[i].used && !es[i].installed ==>
          i == adding && !es[i].cached && !es[i].traffic && !es[i].retiring)
    && (forall i :: 0 <= i < |es| ==> es[i].retiring ==> !es[i].cached && !es[i].traffic)
  }

  /** The traffic flag is set on exactly the entry that the traffic reference names. */
  predicate OneTraffic(s: State) {
    && (forall i :: 0 <= i < |s.entries| ==> s.entries[i].traffic ==>
          s.entries[i].used && s.entries[i].address == s.trafficPeer)
    && (!s.closing && s.trafficPeer != ZERO_ADDRESS ==>
          var i := Find(s.entries, s.trafficPeer); i.Some? && s.entries[i.value].traffic)
  }

  /** Every peer in good standing was added successfully and its removal has not begun;
      `clearing` is the slot whose removal by `clear` is in flight, or -1. */
  predicate Vouched(log: seq<Event>, es: seq<Entry>, clearing: int) {
    forall i :: 0 <= i < |es| ==>
      es[i].used && es[i].installed && !es[i].retiring && i != clearing ==>
      Latest(log, es[i].address) == Some(Ended(es[i].address, true, Ok))
  }

  /** The log accounts for the table; `failed` says that `clear` has met a failure that it
      has not recorded yet. */
  predicate Accounts(s: State, clearing: int, failed: bool) {
    && LawfulLog(s.log)
    && Holds(s.log) == Installed(s.entries) + Orphans(s.log)
    && Faulted(s.log) == (s.fault || failed)
    && Vouched(s.log, s.entries, clearing)
  }

  predicate Pending(s: State) {
    s.shutdownPending || s.disablePending || s.abandonPending
  }

  predicate Flags(s: State) {
    && s.attached == s.bound
    && (Pending(s) || s.closing || !s.bound ==> !s.active)
    && (!s.bound ==> s.entries == Empties(MAXIMUM_PEERS) && s.trafficPeer == ZERO_ADDRESS && !s.busy)
  }

  predicate Core(s: State, adding: int, clearing: int, failed: bool) {
    Table(s.entries, adding) && OneTraffic(s) && Accounts(s, clearing, failed) && Flags(s)
  }

  predicate AtRest(s: State) {
    Core(s, -1, -1, false) && s.Resting() && !Pending(s)
  }

  /** Inside a transaction, between two call-outs. */
  predicate AtWork(s: State) {
    Core(s, -1, -1, false) && s.busy && !s.closing && s.bound
  }

  predicate InClear(s: State, i: int, clearing: int, failure: IOReturn) {
    && Core(s, -1, clearing, failure != Success) && !s.busy && s.closing
    && forall k :: 0 <= k < i && k < |s.entries| ==> s.entries[k] == EMPTY
  }
}
