/** The AWDL datapath: three staging rings filled in interrupt context and drained on the
    workloop, and the packets into which drained Ethernet frames are copied. */
module Datapath {
  import opened Common

  const RING := 64
  const SIDE := 16
  const BATCH := 32

  datatype Frame = Frame(wellFormed: bool, bytes: Bytes)

  /** A pool packet and the frame copied into it. */
  datatype Packet = Packet(id: nat, frame: Frame)

  datatype Kind = Ether | Action | Bulk

  datatype Event =
    | Staged(kind: Kind, frame: Frame)
    | Taken(kind: Kind, frame: Frame)
    | Cleared(kind: Kind, frames: seq<Frame>)
    | Allocated(id: nat)
    | Completed(packets: seq<Packet>)
    | Released(id: nat)

  // -------------------------------------------------------------------------
  // What the log tells
  // -------------------------------------------------------------------------

  /** Frames that entered and left one ring, in order. */
  datatype Passage = Passage(staged: seq<Frame>, left: seq<Frame>)

  function NotePassage(b: Passage, kind: Kind, e: Event): Passage {
    match e
    case Staged(k, frame) => if k == kind then b.(staged := b.staged + [frame]) else b
    case Taken(k, frame) => if k == kind then b.(left := b.left + [frame]) else b
    case Cleared(k, frames) => if k == kind then b.(left := b.left + frames) else b
    case _ => b
  }

  function PassageOf(log: seq<Event>, kind: Kind): Passage {
    if log == [] then Passage([], []) else NotePassage(PassageOf(log[..|log| - 1], kind), kind, log[|log| - 1])
  }

  /** Packets: where in the order of drained frames each was allocated, which are still held, and
      which were completed. `lawful`: identifiers are new when allocated; a packet is completed
      or released only while held; and a batch has at most 32 packets, in order, each with the
      frame for which it was allocated. */
  datatype Pool = Pool(drained: seq<Frame>, positions: seq<nat>, held: set<nat>, completed: seq<Packet>, released: nat,
                       lawful: bool)

  function NotePool(b: Pool, e: Event): Pool {
    match e
    case Taken(k, frame) => if k == Ether then b.(drained := b.drained + [frame]) else b
    case Cleared(k, frames) => if k == Ether then b.(drained := b.drained + frames) else b
    case Allocated(id) =>
      b.(positions := b.positions + [Latest(b.drained)], held := b.held + {id},
         lawful := b.lawful && id == |b.positions| && b.drained != [])
    case Completed(packets) =>
      b.(completed := b.completed + packets, held := b.held - Ids(packets),
         lawful := b.lawful && |packets| <= BATCH && Ids(packets) <= b.held && Ordered(b.completed + packets)
                   && Carries(b, packets))
    case Released(id) =>
      b.(released := b.released + 1, held := b.held - {id}, lawful := b.lawful && id in b.held)
    case _ => b
  }

  function Latest(frames: seq<Frame>): nat {
    if frames == [] then 0 else |frames| - 1
  }

  function Ids(packets: seq<Packet>): set<nat> {
    set p | p in packets :: p.id
  }

  predicate Ordered(packets: seq<Packet>) {
    forall i, j :: 0 <= i < j < |packets| ==> packets[i].id < packets[j].id
  }

  /** Each packet holds the frame that was drained for it. */
  predicate Carries(b: Pool, packets: seq<Packet>) {
    forall p :: p in packets ==>
      p.id < |b.positions| && b.positions[p.id] < |b.drained| && p.frame == b.drained[b.positions[p.id]]
  }

  function PoolOf(log: seq<Event>): Pool {
    if log == [] then Pool([], [], {}, [], 0, true) else NotePool(PoolOf(log[..|log| - 1]), log[|log| - 1])
  }

  // -------------------------------------------------------------------------
  // State
  // -------------------------------------------------------------------------

  /** `live` is the flag that producers test under the lock; `sources` says that the event
      sources exist. */
  datatype State = State(enabled: bool, live: bool, sources: bool, rx: seq<Frame>, actions: seq<Frame>,
                         bulk: seq<Frame>, next: nat, log: seq<Event>)
  {
    function Log(e: Event): (t: State)
      ensures t == this.(log := t.log)
      ensures PassageOf(t.log, Ether) == NotePassage(PassageOf(log, Ether), Ether, e)
      ensures PassageOf(t.log, Action) == NotePassage(PassageOf(log, Action), Action, e)
      ensures PassageOf(t.log, Bulk) == NotePassage(PassageOf(log, Bulk), Bulk, e)
      ensures PoolOf(t.log) == NotePool(PoolOf(log), e)
    {
      assert (log + [e])[..|log|] == log;
      this.(log := log + [e])
    }
  }

  const START := State(false, false, true, [], [], [], 0, [])

  /** What may happen inside a callback, or in interrupt context between two lock sections. */
  datatype Inner =
    | Receive(frame: Frame)
    | QueueAction(frame: Frame)
    | QueueData(frame: Frame)
    | SetEnabled(on: bool)
    | Stop

  /** One turn of a side ring: what happens before it and inside its callback. */
  datatype Turn = Turn(before: seq<Inner>, callback: seq<Inner>)

  /** One turn of the Ethernet ring: what happens before it, and the answers of the pool and of
      the completion queue. */
  datatype Pass = Pass(before: seq<Inner>, granted: bool, usable: bool, completes: bool)

  datatype Op = Do(inner: Inner) | Ready(actions: seq<Turn>, bulk: seq<Turn>, passes: seq<Pass>, completes: bool)

  // -------------------------------------------------------------------------
  // Producers and switches
  // -------------------------------------------------------------------------

  function Stage(s: State, kind: Kind, frame: Frame): State {
    match kind
    case Ether => s.(rx := s.rx + [frame]).Log(Staged(Ether, frame))
    case Action => s.(actions := s.actions + [frame]).Log(Staged(Action, frame))
    case Bulk => s.(bulk := s.bulk + [frame]).Log(Staged(Bulk, frame))
  }

  function Ring(s: State, kind: Kind): seq<Frame> {
    match kind
    case Ether => s.rx
    case Action => s.actions
    case Bulk => s.bulk
  }

  function Capacity(kind: Kind): nat {
    if kind == Ether then RING else SIDE
  }

  predicate Admits(s: State, kind: Kind, frame: Frame) {
    frame.wellFormed && s.live && s.sources && |Ring(s, kind)| < Capacity(kind)
  }

  function Offer(s: State, kind: Kind, frame: Frame): State {
    if Admits(s, kind, frame) then Stage(s, kind, frame) else s
  }

  function Emptied(s: State): State {
    var t := s.(rx := [], actions := [], bulk := []);
    t.Log(Cleared(Ether, s.rx)).Log(Cleared(Action, s.actions)).Log(Cleared(Bulk, s.bulk))
  }

  function Switch(s: State, on: bool): State {
    if on && !s.sources then s
    else if on then s.(enabled := true, live := true)
    else Emptied(s.(enabled := false, live := false))
  }

  function Halt(s: State): State {
    Emptied(s.(enabled := false, live := false, sources := false))
  }

  function Perform(s: State, op: Inner): State {
    match op
    case Receive(frame) => Offer(s, Ether, frame)
    case QueueAction(frame) => Offer(s, Action, frame)
    case QueueData(frame) => Offer(s, Bulk, frame)
    case SetEnabled(on) => Switch(s, on)
    case Stop => Halt(s)
  }

  function PerformAll(s: State, ops: seq<Inner>): State
    decreases |ops|
  {
    if ops == [] then s else PerformAll(Perform(s, ops[0]), ops[1..])
  }

  // -------------------------------------------------------------------------
  // Draining
  // -------------------------------------------------------------------------

  function TakeAction(s: State): State
    requires s.actions != []
  {
    s.(actions := s.actions[1..]).Log(Taken(Action, s.actions[0]))
  }

  function TakeBulk(s: State): State
    requires s.bulk != []
  {
    s.(bulk := s.bulk[1..]).Log(Taken(Bulk, s.bulk[0]))
  }

  function TakeFrame(s: State): State
    requires s.rx != []
  {
    s.(rx := s.rx[1..]).Log(Taken(Ether, s.rx[0]))
  }

  function DrainActions(s: State, turns: seq<Turn>, budget: nat): State
    decreases budget
  {
    if budget == 0 || turns == [] || !s.enabled then s
    else
      var t := PerformAll(s, turns[0].before);
      if t.actions == [] then t
      else DrainActions(PerformAll(TakeAction(t), turns[0].callback), turns[1..], budget - 1)
  }

  function DrainBulk(s: State, turns: seq<Turn>, budget: nat): State
    decreases budget
  {
    if budget == 0 || turns == [] || !s.enabled then s
    else
      var t := PerformAll(s, turns[0].before);
      if t.bulk == [] then t
      else DrainBulk(PerformAll(TakeBulk(t), turns[0].callback), turns[1..], budget - 1)
  }

  /** The drain of the Ethernet ring with the batch collected so far. */
  datatype Drain = Drain(state: State, batch: seq<Packet>)

  function Allocate(s: State): State {
    s.(next := s.next + 1).Log(Allocated(s.next))
  }

  /** Copies one frame into a packet, if the pool has one that can hold it. */
  function Pack(d: Drain, frame: Frame, p: Pass): Drain {
    if !p.granted then d
    else
      var s := Allocate(d.state);
      if p.usable then Drain(s, d.batch + [Packet(d.state.next, frame)])
      else Drain(s.Log(Released(d.state.next)), d.batch)
  }

  function ReleaseAll(s: State, batch: seq<Packet>): State
    decreases |batch|
  {
    if batch == [] then s else ReleaseAll(s.Log(Released(batch[0].id)), batch[1..])
  }

  /** Hands the batch to the completion queue; a batch that is refused is released. */
  function Flush(d: Drain, completes: bool): Drain {
    if completes then Drain(d.state.Log(Completed(d.batch)), []) else Drain(ReleaseAll(d.state, d.batch), [])
  }

  function FlushFull(d: Drain, completes: bool): Drain {
    if |d.batch| == BATCH then Flush(d, completes) else d
  }

  function DrainLoop(d: Drain, passes: seq<Pass>, budget: nat): Drain
    decreases budget
  {
    if budget == 0 || passes == [] then d
    else
      var s := PerformAll(d.state, passes[0].before);
      if s.rx == [] then Drain(s, d.batch)
      else
        var packed := Pack(Drain(TakeFrame(s), d.batch), s.rx[0], passes[0]);
        DrainLoop(FlushFull(packed, passes[0].completes), passes[1..], budget - 1)
  }

  function DrainReceive(s: State, passes: seq<Pass>, completes: bool): State {
    if !s.enabled then s
    else
      var d := DrainLoop(Drain(s, []), passes, RING);
      if d.batch == [] then d.state else Flush(d, completes).state
  }

  function Step(s: State, op: Op): State {
    match op
    case Do(inner) => Perform(s, inner)
    case Ready(actions, bulk, passes, completes) =>
      DrainReceive(DrainBulk(DrainActions(s, actions, SIDE), bulk, SIDE), passes, completes)
  }

  function Run(s: State, ops: seq<Op>): State
    decreases |ops|
  {
    if ops == [] then s else Run(Step(s, ops[0]), ops[1..])
  }
}
