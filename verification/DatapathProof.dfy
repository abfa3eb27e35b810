/** What the datapath keeps, and what follows for every run. */
module DatapathProof {
  import opened Common
  import opened Datapath

  predicate RingInv(s: State, kind: Kind) {
    var b := PassageOf(s.log, kind);
    b.staged == b.left + Ring(s, kind) && |Ring(s, kind)| <= Capacity(kind)
  }

  predicate RingsInv(s: State) {
    RingInv(s, Ether) && RingInv(s, Action) && RingInv(s, Bulk) && (s.live ==> s.sources)
  }

  /** Positions rise, and all are below `bound`. */
  predicate Rising(positions: seq<nat>, bound: nat) {
    (forall i :: 0 <= i < |positions| ==> positions[i] < bound)
    && forall i, j :: 0 <= i < j < |positions| ==> positions[i] < positions[j]
  }

  /** The pool while `batch` is collected. */
  predicate PoolInv(next: nat, b: Pool, batch: seq<Packet>) {
    && b.lawful && |b.positions| == next && Rising(b.positions, |b.drained|)
    && b.held == Ids(batch) && Ordered(b.completed + batch) && Carries(b, batch) && Carries(b, b.completed)
    && next == |b.completed| + b.released + |batch|
  }

  predicate Inv(s: State, batch: seq<Packet>) {
    RingsInv(s) && PoolInv(s.next, PoolOf(s.log), batch) && PoolOf(s.log).drained == PassageOf(s.log, Ether).left
  }

  lemma EmptyRing(kind: Kind)
    ensures RingInv(START, kind)
  {
    assert PassageOf([], kind) == Passage([], []);
  }

  lemma StartHolds()
    ensures Inv(START, [])
  {
    EmptyRing(Ether);
    EmptyRing(Action);
    EmptyRing(Bulk);
    EmptyPool();
    StartLog();
  }

  lemma StartLog()
    ensures PoolOf(START.log) == Pool([], [], {}, [], 0, true) && PassageOf(START.log, Ether).left == []
  {
  }

  lemma EmptyPool()
    ensures PoolInv(0, Pool([], [], {}, [], 0, true), [])
  {
    assert Ids([]) == {};
  }

  // -------------------------------------------------------------------------
  // Producers and switches
  // -------------------------------------------------------------------------

  lemma Append(left: seq<Frame>, ring: seq<Frame>, frame: Frame)
    ensures (left + ring) + [frame] == left + (ring + [frame])
  {
  }

  lemma OfferRings(s: State, kind: Kind, frame: Frame)
    requires RingsInv(s)
    ensures RingsInv(Offer(s, kind, frame))
  {
    Append(PassageOf(s.log, kind).left, Ring(s, kind), frame);
  }

  /** What `t` shares with `s` as far as packets are concerned. */
  predicate SamePool(s: State, t: State) {
    t.next == s.next && PoolOf(t.log) == PoolOf(s.log) && PassageOf(t.log, Ether).left == PassageOf(s.log, Ether).left
  }

  lemma OfferPool(s: State, kind: Kind, frame: Frame)
    ensures SamePool(s, Offer(s, kind, frame))
  {
  }

  lemma OfferKeeps(s: State, kind: Kind, frame: Frame, batch: seq<Packet>)
    requires Inv(s, batch)
    ensures Inv(Offer(s, kind, frame), batch)
  {
    OfferRings(s, kind, frame);
    OfferPool(s, kind, frame);
  }

  /** More drained frames leave the packets as they are. */
  lemma DrainedMore(next: nat, b: Pool, batch: seq<Packet>, frames: seq<Frame>)
    requires PoolInv(next, b, batch)
    ensures PoolInv(next, b.(drained := b.drained + frames), batch)
  {
  }

  lemma EmptiedKeeps(s: State, batch: seq<Packet>)
    requires Inv(s, batch)
    ensures Inv(Emptied(s), batch)
  {
    DrainedMore(s.next, PoolOf(s.log), batch, s.rx);
    assert PassageOf(s.log, Ether).left + s.rx + [] == PassageOf(s.log, Ether).left + s.rx;
    assert PassageOf(s.log, Action).left + s.actions + [] == PassageOf(s.log, Action).left + s.actions;
    assert PassageOf(s.log, Bulk).left + s.bulk + [] == PassageOf(s.log, Bulk).left + s.bulk;
  }

  lemma PerformKeeps(s: State, op: Inner, batch: seq<Packet>)
    requires Inv(s, batch)
    ensures Inv(Perform(s, op), batch)
  {
    match op
    case Receive(frame) => OfferKeeps(s, Ether, frame, batch);
    case QueueAction(frame) => OfferKeeps(s, Action, frame, batch);
    case QueueData(frame) => OfferKeeps(s, Bulk, frame, batch);
    case SetEnabled(on) => EmptiedKeeps(s.(enabled := false, live := false), batch);
    case Stop => EmptiedKeeps(s.(enabled := false, live := false, sources := false), batch);
  }

  lemma {:induction false} PerformAllKeeps(s: State, ops: seq<Inner>, batch: seq<Packet>)
    requires Inv(s, batch)
    ensures Inv(PerformAll(s, ops), batch)
    decreases |ops|
  {
    if ops != [] {
      PerformKeeps(s, ops[0], batch);
      PerformAllKeeps(Perform(s, ops[0]), ops[1..], batch);
    }
  }

  // -------------------------------------------------------------------------
  // Side rings
  // -------------------------------------------------------------------------

  lemma HeadLeaves(left: seq<Frame>, ring: seq<Frame>)
    requires ring != []
    ensures left + ring == (left + [ring[0]]) + ring[1..]
  {
  }

  lemma TakeActionRings(s: State)
    requires RingsInv(s) && s.actions != []
    ensures RingsInv(TakeAction(s)) && SamePool(s, TakeAction(s))
  {
    HeadLeaves(PassageOf(s.log, Action).left, s.actions);
  }

  lemma TakeActionKeeps(s: State, batch: seq<Packet>)
    requires Inv(s, batch) && s.actions != []
    ensures Inv(TakeAction(s), batch)
  {
    TakeActionRings(s);
  }

  lemma TakeBulkRings(s: State)
    requires RingsInv(s) && s.bulk != []
    ensures RingsInv(TakeBulk(s)) && SamePool(s, TakeBulk(s))
  {
    HeadLeaves(PassageOf(s.log, Bulk).left, s.bulk);
  }

  lemma TakeBulkKeeps(s: State, batch: seq<Packet>)
    requires Inv(s, batch) && s.bulk != []
    ensures Inv(TakeBulk(s), batch)
  {
    TakeBulkRings(s);
  }

  lemma {:induction false} DrainActionsKeeps(s: State, turns: seq<Turn>, budget: nat)
    requires Inv(s, [])
    ensures Inv(DrainActions(s, turns, budget), [])
    decreases budget
  {
    if budget != 0 && turns != [] && s.enabled {
      PerformAllKeeps(s, turns[0].before, []);
      var t := PerformAll(s, turns[0].before);
      if t.actions != [] {
        TakeActionKeeps(t, []);
        PerformAllKeeps(TakeAction(t), turns[0].callback, []);
        DrainActionsKeeps(PerformAll(TakeAction(t), turns[0].callback), turns[1..], budget - 1);
      }
    }
  }

  lemma {:induction false} DrainBulkKeeps(s: State, turns: seq<Turn>, budget: nat)
    requires Inv(s, [])
    ensures Inv(DrainBulk(s, turns, budget), [])
    decreases budget
  {
    if budget != 0 && turns != [] && s.enabled {
      PerformAllKeeps(s, turns[0].before, []);
      var t := PerformAll(s, turns[0].before);
      if t.bulk != [] {
        TakeBulkKeeps(t, []);
        PerformAllKeeps(TakeBulk(t), turns[0].callback, []);
        DrainBulkKeeps(PerformAll(TakeBulk(t), turns[0].callback), turns[1..], budget - 1);
      }
    }
  }

  // -------------------------------------------------------------------------
  // Packets
  // -------------------------------------------------------------------------

  /** The latest drained frame has no packet yet. */
  predicate Pending(b: Pool, frame: Frame) {
    b.drained != [] && b.drained[Latest(b.drained)] == frame && Rising(b.positions, Latest(b.drained))
  }

  lemma TakeFrameKeeps(s: State, batch: seq<Packet>)
    requires Inv(s, batch) && s.rx != []
    ensures Inv(TakeFrame(s), batch) && Pending(PoolOf(TakeFrame(s).log), s.rx[0])
  {
    HeadLeaves(PassageOf(s.log, Ether).left, s.rx);
    DrainedMore(s.next, PoolOf(s.log), batch, [s.rx[0]]);
  }

  lemma AllocatedPool(next: nat, b: Pool, batch: seq<Packet>, frame: Frame)
    requires PoolInv(next, b, batch) && Pending(b, frame)
    ensures PoolInv(next + 1, NotePool(b, Allocated(next)), batch + [Packet(next, frame)])
  {
    var c, more := NotePool(b, Allocated(next)), batch + [Packet(next, frame)];
    assert Ids(more) == Ids(batch) + {next} by {
      forall p | p in batch
        ensures p in more
      {
      }
      assert more[|batch|] == Packet(next, frame);
    }
    var all := b.completed + batch;
    assert b.completed + more == all + [Packet(next, frame)];
    forall p | p in all
      ensures p.id < next
    {
      assert p in b.completed || p in batch;
    }
    OrderedAppend(all, Packet(next, frame));
  }

  lemma OrderedPrefix(packets: seq<Packet>, last: Packet)
    requires Ordered(packets + [last])
    ensures Ordered(packets)
  {
    var all := packets + [last];
    assert forall i :: 0 <= i < |packets| ==> packets[i] == all[i];
  }

  lemma OrderedAppend(packets: seq<Packet>, last: Packet)
    requires Ordered(packets) && forall p :: p in packets ==> p.id < last.id
    ensures Ordered(packets + [last])
  {
    forall i | 0 <= i < |packets|
      ensures packets[i].id < last.id
    {
      assert packets[i] in packets;
    }
  }

  lemma ReleasedPool(next: nat, b: Pool, batch: seq<Packet>, last: Packet)
    requires PoolInv(next, b, batch + [last])
    ensures PoolInv(next, NotePool(b, Released(last.id)), batch)
  {
    var all := batch + [last];
    assert b.completed + all == (b.completed + batch) + [last];
    OrderedPrefix(b.completed + batch, last);
    assert all[|batch|] == last && last.id in Ids(all);
    assert Ids(all) - {last.id} == Ids(batch) by {
      forall p | p in batch
        ensures p.id != last.id
      {
        var i :| 0 <= i < |batch| && batch[i] == p;
        assert (b.completed + all)[|b.completed| + i] == p && (b.completed + all)[|b.completed| + |batch|] == last;
      }
    }
  }

  /** Packet events leave the rings alone. */
  lemma PacketRings(s: State, next: nat, e: Event)
    requires RingsInv(s) && (e.Allocated? || e.Released? || e.Completed?)
    ensures var t := s.(next := next).Log(e);
      RingsInv(t) && PassageOf(t.log, Ether) == PassageOf(s.log, Ether)
        && PoolOf(t.log).drained == PoolOf(s.log).drained
  {
  }

  lemma AllocateKeeps(s: State, batch: seq<Packet>, frame: Frame)
    requires Inv(s, batch) && Pending(PoolOf(s.log), frame)
    ensures Inv(Allocate(s), batch + [Packet(s.next, frame)])
  {
    AllocatedPool(s.next, PoolOf(s.log), batch, frame);
    PacketRings(s, s.next + 1, Allocated(s.next));
  }

  lemma ReleaseKeeps(s: State, batch: seq<Packet>, last: Packet)
    requires Inv(s, batch + [last])
    ensures Inv(s.Log(Released(last.id)), batch)
  {
    ReleasedPool(s.next, PoolOf(s.log), batch, last);
    PacketRings(s, s.next, Released(last.id));
  }

  lemma PackKeeps(d: Drain, frame: Frame, p: Pass)
    requires Inv(d.state, d.batch) && Pending(PoolOf(d.state.log), frame)
    ensures var e := Pack(d, frame, p); Inv(e.state, e.batch) && |e.batch| <= |d.batch| + 1
  {
    if p.granted {
      AllocateKeeps(d.state, d.batch, frame);
      if !p.usable {
        ReleaseKeeps(Allocate(d.state), d.batch, Packet(d.state.next, frame));
      }
    }
  }

  lemma CompletedPool(next: nat, b: Pool, batch: seq<Packet>)
    requires PoolInv(next, b, batch) && |batch| <= BATCH
    ensures PoolInv(next, NotePool(b, Completed(batch)), [])
  {
    assert b.completed + batch + [] == b.completed + batch;
    assert Ids([]) == {};
  }

  lemma FirstReleased(next: nat, b: Pool, batch: seq<Packet>)
    requires PoolInv(next, b, batch) && batch != []
    ensures PoolInv(next, NotePool(b, Released(batch[0].id)), batch[1..])
  {
    var rest := batch[1..];
    assert Ids(batch) - {batch[0].id} == Ids(rest) by {
      forall p | p in rest
        ensures p in batch && p.id != batch[0].id
      {
        var i :| 0 <= i < |rest| && rest[i] == p;
        assert (b.completed + batch)[|b.completed|] == batch[0] && (b.completed + batch)[|b.completed| + i + 1] == p;
      }
      assert batch == [batch[0]] + rest;
    }
    OrderedRest(b.completed, batch);
  }

  lemma OrderedRest(done: seq<Packet>, batch: seq<Packet>)
    requires Ordered(done + batch) && batch != []
    ensures Ordered(done + batch[1..])
  {
    var all, fewer := done + batch, done + batch[1..];
    forall i, j | 0 <= i < j < |fewer|
      ensures fewer[i].id < fewer[j].id
    {
      assert fewer[i] == all[if i < |done| then i else i + 1];
      assert fewer[j] == all[if j < |done| then j else j + 1];
    }
  }

  lemma {:induction false} ReleaseAllKeeps(s: State, batch: seq<Packet>)
    requires Inv(s, batch)
    ensures Inv(ReleaseAll(s, batch), [])
    decreases |batch|
  {
    if batch != [] {
      FirstReleased(s.next, PoolOf(s.log), batch);
      PacketRings(s, s.next, Released(batch[0].id));
      ReleaseAllKeeps(s.Log(Released(batch[0].id)), batch[1..]);
    }
  }

  lemma FlushKeeps(d: Drain, completes: bool)
    requires Inv(d.state, d.batch) && |d.batch| <= BATCH
    ensures Inv(Flush(d, completes).state, []) && Flush(d, completes).batch == []
  {
    if completes {
      CompletedPool(d.state.next, PoolOf(d.state.log), d.batch);
      PacketRings(d.state, d.state.next, Completed(d.batch));
    } else {
      ReleaseAllKeeps(d.state, d.batch);
    }
  }

  function Passed(s: State, batch: seq<Packet>, p: Pass): Drain
    requires s.rx != []
  {
    FlushFull(Pack(Drain(TakeFrame(s), batch), s.rx[0], p), p.completes)
  }

  lemma PassKeeps(s: State, batch: seq<Packet>, p: Pass)
    requires Inv(s, batch) && |batch| < BATCH && s.rx != []
    ensures var e := Passed(s, batch, p); Inv(e.state, e.batch) && |e.batch| < BATCH
  {
    TakeFrameKeeps(s, batch);
    PackKeeps(Drain(TakeFrame(s), batch), s.rx[0], p);
    var packed := Pack(Drain(TakeFrame(s), batch), s.rx[0], p);
    if |packed.batch| == BATCH {
      FlushKeeps(packed, p.completes);
    }
  }

  lemma {:induction false} DrainLoopKeeps(d: Drain, passes: seq<Pass>, budget: nat)
    requires Inv(d.state, d.batch) && |d.batch| < BATCH
    ensures var e := DrainLoop(d, passes, budget); Inv(e.state, e.batch) && |e.batch| < BATCH
    decreases budget
  {
    if budget != 0 && passes != [] {
      PerformAllKeeps(d.state, passes[0].before, d.batch);
      var s := PerformAll(d.state, passes[0].before);
      if s.rx != [] {
        PassKeeps(s, d.batch, passes[0]);
        DrainLoopKeeps(Passed(s, d.batch, passes[0]), passes[1..], budget - 1);
      }
    }
  }

  lemma DrainReceiveKeeps(s: State, passes: seq<Pass>, completes: bool)
    requires Inv(s, [])
    ensures Inv(DrainReceive(s, passes, completes), [])
  {
    if s.enabled {
      DrainLoopKeeps(Drain(s, []), passes, RING);
      FlushKeeps(DrainLoop(Drain(s, []), passes, RING), completes);
    }
  }

  lemma StepKeeps(s: State, op: Op)
    requires Inv(s, [])
    ensures Inv(Step(s, op), [])
  {
    match op
    case Do(inner) => PerformKeeps(s, inner, []);
    case Ready(actions, bulk, passes, completes) =>
      DrainActionsKeeps(s, actions, SIDE);
      DrainBulkKeeps(DrainActions(s, actions, SIDE), bulk, SIDE);
      DrainReceiveKeeps(DrainBulk(DrainActions(s, actions, SIDE), bulk, SIDE), passes, completes);
  }

  lemma {:induction false} RunKeeps(s: State, ops: seq<Op>)
    requires Inv(s, [])
    ensures Inv(Run(s, ops), [])
    decreases |ops|
  {
    if ops != [] {
      StepKeeps(s, ops[0]);
      RunKeeps(Step(s, ops[0]), ops[1..]);
    }
  }

  // -------------------------------------------------------------------------
  // For every run
  // -------------------------------------------------------------------------

  lemma Reachable(ops: seq<Op>)
    ensures Inv(Run(START, ops), [])
  {
    StartHolds();
    RunKeeps(START, ops);
  }

  /** Each ring is a bounded queue: what entered has left, in order, or is in the ring. */
  lemma RingsAreQueues(ops: seq<Op>, kind: Kind)
    ensures var s := Run(START, ops);
      var b := PassageOf(s.log, kind);
      b.staged == b.left + Ring(s, kind) && |Ring(s, kind)| <= Capacity(kind)
  {
    Reachable(ops);
    assert RingInv(Run(START, ops), kind);
  }

  /** Every packet allocated was completed or released, and none is held. */
  lemma PacketsAreConserved(ops: seq<Op>)
    ensures var b := PoolOf(Run(START, ops).log);
      b.lawful && b.held == {} && |b.positions| == |b.completed| + b.released
  {
    Reachable(ops);
    assert Ids([]) == {};
  }

  /** The position among the staged frames of the frame that a completed packet carries. */
  function PlaceOf(b: Pool, k: nat): nat
    requires k < |b.completed| && b.completed[k].id < |b.positions|
  {
    b.positions[b.completed[k].id]
  }

  /** Every completed packet carries the staged frame whose place it was given. */
  lemma CompletedCarryStagedFrames(ops: seq<Op>, k: nat)
    requires k < |PoolOf(Run(START, ops).log).completed|
    ensures var s := Run(START, ops);
      var b, staged := PoolOf(s.log), PassageOf(s.log, Ether).staged;
      && b.completed[k].id < |b.positions| && PlaceOf(b, k) < |staged|
      && b.completed[k].frame == staged[PlaceOf(b, k)]
  {
    var s := Run(START, ops);
    var b := PoolOf(s.log);
    Reachable(ops);
    assert b.completed[k] in b.completed;
    assert b.completed + [] == b.completed;
    assert RingInv(s, Ether);
  }

  /** Packets are completed in the order in which their frames were staged, and no frame twice. */
  lemma CompletedInRingOrder(ops: seq<Op>, j: nat, k: nat)
    requires j < k < |PoolOf(Run(START, ops).log).completed|
    ensures var b := PoolOf(Run(START, ops).log);
      && b.completed[j].id < |b.positions| && b.completed[k].id < |b.positions|
      && PlaceOf(b, j) < PlaceOf(b, k)
  {
    var s := Run(START, ops);
    var b := PoolOf(s.log);
    Reachable(ops);
    CompletedCarryStagedFrames(ops, j);
    CompletedCarryStagedFrames(ops, k);
    assert b.completed + [] == b.completed;
  }

  /** Once stopped, nothing is admitted any more. */
  lemma StoppedAdmitsNothing(s: State, kind: Kind, frame: Frame)
    requires RingsInv(s) && !s.sources
    ensures Offer(s, kind, frame) == s && Switch(s, true) == s
  {
  }
}
