/** The datapath as the driver runs it: three rings with read, write and count indices, and a
    batch array of 32 packets. Proved against `Datapath`. */
module NativeDatapathClass {
  import opened Common
  import opened Rings
  import opened Datapath

  class NativeDatapath {
    var enabled: bool
    var live: bool
    var sources: bool
    const rx: StagingRing<Frame>
    const actions: StagingRing<Frame>
    const bulk: StagingRing<Frame>
    var next: nat
    ghost var log: seq<Event>

    ghost function Repr(): set<object> {
      {this, rx, rx.slots, actions, actions.slots, bulk, bulk.slots}
    }

    /** The rings are coherent; the Ethernet ring only as long as its source exists. */
    ghost predicate Valid()
      reads Repr()
    {
      && rx.Valid() && actions.Valid() && bulk.Valid()
      && rx != actions && rx != bulk && actions != bulk
      && rx.slots != actions.slots && rx.slots != bulk.slots && actions.slots != bulk.slots
      && rx.slots.Length == RING && actions.slots.Length == SIDE && bulk.slots.Length == SIDE
      && (sources ==> rx.Coherent()) && actions.Coherent() && bulk.Coherent()
      && (!sources ==> rx.count == 0 && !live)
    }

    ghost function Abs(): State
      requires Valid()
      reads Repr()
    {
      State(enabled, live, sources, rx.Contents(), actions.Contents(), bulk.Contents(), next, log)
    }

    constructor ()
      ensures Valid() && fresh(Repr()) && Abs() == START
    {
      enabled, live, sources, next, log := false, false, true, 0, [];
      rx := new StagingRing<Frame>(RING);
      actions := new StagingRing<Frame>(SIDE);
      bulk := new StagingRing<Frame>(SIDE);
    }

    ghost method Note(e: Event)
      requires Valid()
      modifies this`log
      ensures Valid() && Abs() == old(Abs()).Log(e)
    {
      log := log + [e];
    }

    // -----------------------------------------------------------------------
    // Producers and switches
    // -----------------------------------------------------------------------

    method ReceiveFrame(frame: Frame) returns (accepted: bool)
      requires Valid()
      modifies this`log, rx, rx.slots
      ensures Valid() && Abs() == Offer(old(Abs()), Ether, frame) && accepted == Admits(old(Abs()), Ether, frame)
    {
      accepted := frame.wellFormed && live && sources && rx.count < RING;
      if accepted {
        rx.Put(frame);
        log := log + [Staged(Ether, frame)];
      }
    }

    method QueueActionFrame(frame: Frame) returns (accepted: bool)
      requires Valid()
      modifies this`log, actions, actions.slots
      ensures Valid() && Abs() == Offer(old(Abs()), Action, frame) && accepted == Admits(old(Abs()), Action, frame)
    {
      accepted := frame.wellFormed && live && sources && actions.count < SIDE;
      if accepted {
        actions.Put(frame);
        log := log + [Staged(Action, frame)];
      }
    }

    method QueueDataFrame(frame: Frame) returns (accepted: bool)
      requires Valid()
      modifies this`log, bulk, bulk.slots
      ensures Valid() && Abs() == Offer(old(Abs()), Bulk, frame) && accepted == Admits(old(Abs()), Bulk, frame)
    {
      accepted := frame.wellFormed && live && sources && bulk.count < SIDE;
      if accepted {
        bulk.Put(frame);
        log := log + [Staged(Bulk, frame)];
      }
    }

    method SetFlags(on: bool)
      requires Valid() && (on ==> sources)
      modifies this`enabled, this`live
      ensures Valid() && Abs() == old(Abs()).(enabled := on, live := on)
    {
      enabled, live := on, on;
    }

    method ClearRings()
      requires Valid() && !live
      modifies this`log, rx, actions, bulk
      ensures Valid() && Abs() == Emptied(old(Abs()))
    {
      ghost var s := Abs();
      rx.Reset();
      actions.Reset();
      bulk.Reset();
      assert Abs() == s.(rx := [], actions := [], bulk := []);
      Note(Cleared(Ether, s.rx));
      Note(Cleared(Action, s.actions));
      Note(Cleared(Bulk, s.bulk));
    }

    method EnableGated(on: bool) returns (status: IOReturn)
      requires Valid()
      modifies this, rx, actions, bulk
      ensures Valid() && Abs() == Switch(old(Abs()), on)
      ensures status == if on && !old(sources) then NotReady else Success
    {
      if on && !sources {
        return NotReady;
      }
      SetFlags(on);
      if !on {
        ClearRings();
      }
      return Success;
    }

    /** Stopping zeroes the count of the Ethernet ring but leaves its two indices. */
    method StopGated()
      requires Valid()
      modifies this, rx, actions, bulk
      ensures Valid() && Abs() == Halt(old(Abs()))
      ensures rx.Coherent() <==> rx.read == rx.write
    {
      ghost var s := Abs();
      enabled, live, sources := false, false, false;
      rx.ZeroCount();
      actions.Reset();
      bulk.Reset();
      assert Abs() == s.(enabled := false, live := false, sources := false, rx := [], actions := [], bulk := []);
      Note(Cleared(Ether, s.rx));
      Note(Cleared(Action, s.actions));
      Note(Cleared(Bulk, s.bulk));
    }

    method PerformOne(op: Inner)
      requires Valid()
      modifies Repr()
      ensures Valid() && Abs() == Perform(old(Abs()), op)
    {
      match op
      case Receive(frame) => var _ := ReceiveFrame(frame);
      case QueueAction(frame) => var _ := QueueActionFrame(frame);
      case QueueData(frame) => var _ := QueueDataFrame(frame);
      case SetEnabled(on) => var _ := EnableGated(on);
      case Stop => StopGated();
    }

    method Interleave(ops: seq<Inner>)
      requires Valid()
      modifies Repr()
      ensures Valid() && Abs() == PerformAll(old(Abs()), ops)
    {
      for i := 0 to |ops|
        invariant Valid() && PerformAll(Abs(), ops[i..]) == PerformAll(old(Abs()), ops)
      {
        assert ops[i..][0] == ops[i] && ops[i..][1..] == ops[i + 1..];
        PerformOne(ops[i]);
      }
      assert ops[|ops|..] == [];
    }

    // -----------------------------------------------------------------------
    // Side rings
    // -----------------------------------------------------------------------

    method TakeActionFrame()
      requires Valid() && actions.count != 0
      modifies this`log, actions
      ensures Valid() && Abs() == Datapath.TakeAction(old(Abs()))
    {
      var frame := actions.Take();
      log := log + [Taken(Action, frame)];
    }

    method TakeBulkFrame()
      requires Valid() && bulk.count != 0
      modifies this`log, bulk
      ensures Valid() && Abs() == Datapath.TakeBulk(old(Abs()))
    {
      var frame := bulk.Take();
      log := log + [Taken(Bulk, frame)];
    }

    method ServeAction(turn: Turn) returns (more: bool)
      requires Valid()
      modifies Repr()
      ensures Valid()
      ensures var t := PerformAll(old(Abs()), turn.before);
        && more == (t.actions != [])
        && Abs() == if more then PerformAll(Datapath.TakeAction(t), turn.callback) else t
    {
      Interleave(turn.before);
      more := actions.count != 0;
      if more {
        TakeActionFrame();
        Interleave(turn.callback);
      }
    }

    method DrainActionRing(turns: seq<Turn>)
      requires Valid()
      modifies Repr()
      ensures Valid() && Abs() == DrainActions(old(Abs()), turns, SIDE)
    {
      var i := 0;
      while i < SIDE && i < |turns| && enabled
        invariant 0 <= i <= SIDE && i <= |turns| && Valid()
        invariant DrainActions(Abs(), turns[i..], SIDE - i) == DrainActions(old(Abs()), turns, SIDE)
        decreases SIDE - i
      {
        assert turns[i..][0] == turns[i] && turns[i..][1..] == turns[i + 1..];
        var more := ServeAction(turns[i]);
        if !more {
          return;
        }
        i := i + 1;
      }
    }

    method ServeBulk(turn: Turn) returns (more: bool)
      requires Valid()
      modifies Repr()
      ensures Valid()
      ensures var t := PerformAll(old(Abs()), turn.before);
        && more == (t.bulk != [])
        && Abs() == if more then PerformAll(Datapath.TakeBulk(t), turn.callback) else t
    {
      Interleave(turn.before);
      more := bulk.count != 0;
      if more {
        TakeBulkFrame();
        Interleave(turn.callback);
      }
    }

    method DrainDataRing(turns: seq<Turn>)
      requires Valid()
      modifies Repr()
      ensures Valid() && Abs() == DrainBulk(old(Abs()), turns, SIDE)
    {
      var i := 0;
      while i < SIDE && i < |turns| && enabled
        invariant 0 <= i <= SIDE && i <= |turns| && Valid()
        invariant DrainBulk(Abs(), turns[i..], SIDE - i) == DrainBulk(old(Abs()), turns, SIDE)
        decreases SIDE - i
      {
        assert turns[i..][0] == turns[i] && turns[i..][1..] == turns[i + 1..];
        var more := ServeBulk(turns[i]);
        if !more {
          return;
        }
        i := i + 1;
      }
    }

    // -----------------------------------------------------------------------
    // The Ethernet ring
    // -----------------------------------------------------------------------

    method TakeRxFrame() returns (frame: Frame)
      requires Valid() && rx.count != 0
      modifies this`log, rx
      ensures Valid() && Abs() == Datapath.TakeFrame(old(Abs())) && frame == old(Abs()).rx[0]
    {
      frame := rx.Take();
      log := log + [Taken(Ether, frame)];
    }

    method AllocatePacket() returns (id: nat)
      requires Valid()
      modifies this`next, this`log
      ensures Valid() && Abs() == Allocate(old(Abs())) && id == old(next)
    {
      id := next;
      next := next + 1;
      log := log + [Allocated(id)];
    }

    static method AddPacket(packets: array<Packet>, n: nat, packet: Packet)
      requires n < packets.Length
      modifies packets
      ensures packets[..n + 1] == old(packets[..n]) + [packet]
    {
      packets[n] := packet;
    }

    method KeepPacket(packets: array<Packet>, n: nat, frame: Frame)
      requires Valid() && packets !in Repr() && n < packets.Length
      modifies this`next, this`log, packets
      ensures Valid() && Abs() == Allocate(old(Abs()))
      ensures packets[..n + 1] == old(packets[..n]) + [Packet(old(next), frame)]
    {
      var id := AllocatePacket();
      ghost var s := Abs();
      AddPacket(packets, n, Packet(id, frame));
      assert Abs() == s;
    }

    method ReturnPacket()
      requires Valid()
      modifies this`next, this`log
      ensures Valid() && Abs() == Allocate(old(Abs())).Log(Released(old(next)))
    {
      var id := AllocatePacket();
      Note(Released(id));
    }

    /** Copies one frame into a packet and puts it into the batch, or gives the packet back. */
    method PackFrame(packets: array<Packet>, n: nat, frame: Frame, p: Pass) returns (m: nat)
      requires Valid() && packets !in Repr() && packets.Length == BATCH && n < BATCH
      modifies this`next, this`log, packets
      ensures Valid() && m == (if p.granted && p.usable then n + 1 else n)
      ensures Drain(Abs(), packets[..m]) == Pack(Drain(old(Abs()), old(packets[..n])), frame, p)
    {
      m := n;
      if p.granted {
        if p.usable {
          KeepPacket(packets, n, frame);
          m := n + 1;
        } else {
          ReturnPacket();
        }
      }
    }

    /** Hands `n` packets to the completion queue, or releases them one by one. */
    method CompleteBatch(packets: array<Packet>, n: nat, completes: bool)
      requires Valid() && packets !in Repr() && n <= packets.Length
      modifies this`log
      ensures Valid() && Abs() == Flush(Drain(old(Abs()), packets[..n]), completes).state
    {
      if completes {
        Note(Completed(packets[..n]));
      } else {
        ghost var batch := packets[..n];
        for j := 0 to n
          invariant Valid() && ReleaseAll(Abs(), batch[j..]) == ReleaseAll(old(Abs()), batch)
        {
          assert batch[j..][0] == packets[j] && batch[j..][1..] == batch[j + 1..];
          Note(Released(packets[j].id));
        }
        assert batch[n..] == [];
      }
    }

    method FlushIfFull(packets: array<Packet>, n: nat, completes: bool) returns (m: nat)
      requires Valid() && packets !in Repr() && packets.Length == BATCH && n <= BATCH
      modifies this`log
      ensures Valid() && m < BATCH
        && Drain(Abs(), packets[..m]) == FlushFull(Drain(old(Abs()), packets[..n]), completes)
    {
      m := n;
      if n == BATCH {
        CompleteBatch(packets, n, completes);
        m := 0;
      }
    }

    method ServePass(packets: array<Packet>, n: nat, p: Pass) returns (m: nat)
      requires Valid() && packets !in Repr() && packets.Length == BATCH && n < BATCH && rx.count != 0
      modifies this`next, this`log, rx, packets
      ensures Valid() && m < BATCH
      ensures var s, batch := old(Abs()), old(packets[..n]);
        Drain(Abs(), packets[..m]) == FlushFull(Pack(Drain(Datapath.TakeFrame(s), batch), s.rx[0], p), p.completes)
    {
      var frame := TakeRxFrame();
      m := PackFrame(packets, n, frame, p);
      m := FlushIfFull(packets, m, p.completes);
    }

    method DrainRing(packets: array<Packet>, passes: seq<Pass>) returns (n: nat)
      requires Valid() && packets !in Repr() && packets.Length == BATCH
      modifies Repr(), packets
      ensures Valid() && n < BATCH && Drain(Abs(), packets[..n]) == DrainLoop(Drain(old(Abs()), []), passes, RING)
    {
      n := 0;
      var i := 0;
      while i < RING && i < |passes|
        invariant 0 <= i <= RING && i <= |passes| && n < BATCH && Valid()
        invariant DrainLoop(Drain(Abs(), packets[..n]), passes[i..], RING - i) ==
          DrainLoop(Drain(old(Abs()), []), passes, RING)
        decreases RING - i
      {
        assert passes[i..][0] == passes[i] && passes[i..][1..] == passes[i + 1..];
        Interleave(passes[i].before);
        if rx.count == 0 {
          return;
        }
        n := ServePass(packets, n, passes[i]);
        i := i + 1;
      }
    }

    method DrainReceiveRing(passes: seq<Pass>, completes: bool)
      requires Valid()
      modifies Repr()
      ensures Valid() && Abs() == DrainReceive(old(Abs()), passes, completes)
    {
      if enabled {
        var packets := new Packet[BATCH](_ => Packet(0, Frame(false, [])));
        var n := DrainRing(packets, passes);
        if n != 0 {
          CompleteBatch(packets, n, completes);
        }
      }
    }

    /** Control frames are drained before bulk data and Ethernet frames. */
    method ReceiveReady(first: seq<Turn>, second: seq<Turn>, passes: seq<Pass>, completes: bool)
      requires Valid()
      modifies Repr()
      ensures Valid() && Abs() == Step(old(Abs()), Ready(first, second, passes, completes))
    {
      DrainActionRing(first);
      DrainDataRing(second);
      DrainReceiveRing(passes, completes);
    }
  }
}
