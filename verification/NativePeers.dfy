/** The peer owner as the driver runs it: an object whose methods update a fixed table in
    place and call out in the middle. Every method is proved against the machine of `Peers`. */
module NativePeersClass {
  import opened Common
  import opened Peers
  import opened PeersProof

  /** How much re-entry a script of answers contains. */
  function Load(answers: seq<Answer>): nat {
    if answers == [] then 0 else |answers[0].requests| + Load(answers[1..])
  }

  lemma LoadSplits(answers: seq<Answer>)
    ensures |First(answers).requests| <= Load(answers) && Load(Rest(answers)) <= Load(answers)
  {
  }

  class NativePeers {
    const entries: array<Entry>
    var trafficPeer: Address
    var attached: bool
    var lastError: IOReturn
    var bound: bool
    var active: bool
    var fault: bool
    var busy: bool
    var closing: bool
    var shutdownPending: bool
    var disablePending: bool
    var abandonPending: bool
    ghost var log: seq<Event>

    ghost predicate Valid() {
      entries.Length == MAXIMUM_PEERS
    }

    ghost function Abs(): State
      reads this, entries
    {
      State(entries[..], trafficPeer, attached, lastError, bound, active, fault, busy, closing,
            shutdownPending, disablePending, abandonPending, log)
    }

    constructor ()
      ensures Valid() && Abs() == START && fresh(entries)
    {
      entries := new Entry[MAXIMUM_PEERS](_ => EMPTY);
      trafficPeer, lastError := ZERO_ADDRESS, Success;
      attached, bound, active, fault, busy, closing := false, false, false, false, false, false;
      shutdownPending, disablePending, abandonPending := false, false, false;
      log := [];
      new;
      assert entries[..] == Empties(MAXIMUM_PEERS);
    }

    // -----------------------------------------------------------------------
    // Call-outs
    // -----------------------------------------------------------------------

    /** While a call-out is open its requests are made of this very object. */
    method Reenter(requests: seq<Request>)
      requires Valid() && (busy || closing)
      modifies this, entries
      ensures Valid() && Abs() == CallOut(old(Abs()), requests)
      ensures busy == old(busy) && closing == old(closing)
      decreases |requests|, 0
    {
      for i := 0 to |requests|
        invariant busy == old(busy) && closing == old(closing)
        invariant CallOut(Abs(), requests[i..]) == CallOut(old(Abs()), requests)
      {
        assert requests[i..][0] == requests[i] && requests[i..][1..] == requests[i + 1..];
        ReentryOnlyMarks(Abs(), requests[i]);
        var _ := Perform(requests[i], []);
      }
      assert requests[|requests|..] == [];
    }

    method SetAwdlPeer(address: Address, add: bool, answers: seq<Answer>)
      returns (result: PeerResult, rest: seq<Answer>)
      requires Valid() && (busy || closing)
      modifies this, entries
      ensures Valid() && Abs() == CallOut(old(Abs()).Log(Began(address, add)), First(answers).requests)
      ensures result == First(answers).result && rest == Rest(answers)
      ensures busy == old(busy) && closing == old(closing)
      decreases Load(answers), 1
    {
      LoadSplits(answers);
      log := log + [Began(address, add)];
      Reenter(First(answers).requests);
      return First(answers).result, Rest(answers);
    }

    /** Any request, at rest or during a call-out. */
    method Perform(r: Request, answers: seq<Answer>) returns (result: IOReturn)
      requires Valid()
      modifies this, entries
      ensures Valid() && Point(Abs(), Done(result)) == Drive(Begin(old(Abs()), r), answers)
      decreases Load(answers), 10
    {
      match r
      case Bind(native, a, current, hardware) => result := Bind(native, a, current, hardware);
      case Enable(value, hardware) => result := Enable(value, hardware, answers);
      case Revoke =>
        active := false;
        result := Success;
      case Shutdown =>
        Shutdown(answers);
        result := Success;
      case Abandon =>
        Abandon();
        result := Success;
      case Cache(operation, a, q) => result := Cache(operation, a, q, answers);
      case Traffic(d, q) => result := Traffic(d, q, answers);
      case Ask(a) =>
        var ok := Authorized(a);
        log := log + [Asked(a, ok)];
        result := Success;
    }

    // -----------------------------------------------------------------------
    // Read-only operations
    // -----------------------------------------------------------------------

    method FindEntry(address: Address) returns (index: Option<nat>)
      requires Valid()
      ensures index == Find(entries[..], address)
    {
      var i := 0;
      while i < entries.Length
        invariant 0 <= i <= entries.Length
        invariant FindFrom(entries[..], address, i) == Find(entries[..], address)
      {
        if entries[i].used && entries[i].address == address {
          return Some(i);
        }
        i := i + 1;
      }
      return None;
    }

    method Authorized(address: Address) returns (ok: bool)
      requires Valid()
      ensures ok == Peers.Authorized(Abs(), address)
    {
      if !bound || !active || fault || closing || !Unicast(address) {
        return false;
      }
      var i := FindEntry(address);
      return i.Some? && entries[i.value].installed && !entries[i.value].retiring
             && (entries[i.value].cached || entries[i.value].traffic);
    }

    // -----------------------------------------------------------------------
    // Teardown
    // -----------------------------------------------------------------------

    method Clear(unbind: bool, answers: seq<Answer>, ghost reply: Option<IOReturn>)
      requires Valid() && !busy
      modifies this, entries
      ensures Valid()
      ensures Point(Abs(), Done(if reply.Some? then reply.value else lastError))
              == Drive(Peers.Clear(old(Abs()), unbind, reply), answers)
      decreases Load(answers), 5
    {
      if closing {
        shutdownPending := shutdownPending || unbind;
        return;
      }
      ClearOpen(unbind, answers, reply);
    }

    method ClearOpen(unbind: bool, answers: seq<Answer>, ghost reply: Option<IOReturn>)
      requires Valid() && !busy && !closing
      modifies this, entries
      ensures Valid()
      ensures Point(Abs(), Done(if reply.Some? then reply.value else lastError))
              == Drive(Peers.Clear(old(Abs()), unbind, reply), answers)
      decreases Load(answers), 5, 0
    {
      closing := true;
      active := false;
      var failure := ClearEntries(unbind, answers, reply);
      ClearDone(unbind, failure, reply);
    }

    method ClearDone(unbind: bool, failure: IOReturn, ghost reply: Option<IOReturn>)
      modifies this
      ensures Abs() == ClearEnd(old(Abs()), unbind, failure, reply).state
    {
      trafficPeer := ZERO_ADDRESS;
      lastError := failure;
      if failure != Success {
        fault := true;
      }
      Unpend(unbind || shutdownPending || abandonPending);
    }

    method Unpend(unbind: bool)
      modifies this
      ensures Abs() == Unpended(old(Abs()), unbind)
    {
      if unbind {
        attached := false;
        bound := false;
      }
      shutdownPending, disablePending, abandonPending := false, false, false;
      closing := false;
      assert entries[..] == old(entries[..]);
    }

    /** The loop of `clear`. */
    method ClearEntries(unbind: bool, answers: seq<Answer>, ghost reply: Option<IOReturn>)
      returns (failure: IOReturn)
      requires Valid() && !busy && closing
      modifies this, entries
      ensures Valid() && !busy && closing
      ensures ClearEnd(Abs(), unbind, failure, reply)
              == Drive(ClearFrom(old(Abs()), 0, unbind, Success, reply), answers)
      decreases Load(answers), 4
    {
      failure := Success;
      var rest := answers;
      var i := 0;
      while i < entries.Length
        invariant 0 <= i <= entries.Length && !busy && closing && Load(rest) <= Load(answers)
        invariant Drive(ClearFrom(Abs(), i, unbind, failure, reply), rest)
                  == Drive(ClearFrom(old(Abs()), 0, unbind, Success, reply), answers)
      {
        failure, rest := ClearEntry(i, unbind, failure, rest, reply);
        i := i + 1;
      }
      SweepIsDone(Abs(), unbind, failure, reply);
    }

    method ClearEntry(i: nat, unbind: bool, failureSoFar: IOReturn, answers: seq<Answer>, ghost reply: Option<IOReturn>)
      returns (failure: IOReturn, rest: seq<Answer>)
      requires Valid() && !busy && closing && i < MAXIMUM_PEERS
      modifies this, entries
      ensures Valid() && !busy && closing && Load(rest) <= Load(answers)
      ensures Drive(ClearFrom(Abs(), i + 1, unbind, failure, reply), rest)
              == Drive(ClearFrom(old(Abs()), i, unbind, failureSoFar, reply), answers)
      decreases Load(answers), 3
    {
      if entries[i].used && entries[i].installed {
        failure, rest := RemoveInClear(i, unbind, failureSoFar, answers, reply);
      } else {
        failure, rest := failureSoFar, answers;
        entries[i] := EMPTY;
        assert Abs() == old(Abs()).Put(i, EMPTY);
        SlotIsSkipped(old(Abs()), Abs(), i, unbind, failure, reply);
      }
    }

    method RemoveInClear(i: nat, unbind: bool, failureSoFar: IOReturn, answers: seq<Answer>,
      ghost reply: Option<IOReturn>)
      returns (failure: IOReturn, rest: seq<Answer>)
      requires Valid() && !busy && closing && i < MAXIMUM_PEERS && entries[i].used && entries[i].installed
      modifies this, entries
      ensures Valid() && !busy && closing && Load(rest) <= Load(answers)
      ensures Drive(ClearFrom(Abs(), i + 1, unbind, failure, reply), rest)
              == Drive(ClearFrom(old(Abs()), i, unbind, failureSoFar, reply), answers)
      decreases Load(answers), 2
    {
      LoadSplits(answers);
      var result;
      result, rest := SetAwdlPeer(entries[i].address, false, answers);
      failure := if result == Ok then failureSoFar else Status(result);
      RecordClear(i, result);
      RemovedSlot(old(Abs()), Abs(), i, unbind, failureSoFar, reply, answers);
    }

    method RecordClear(i: nat, result: PeerResult)
      requires Valid() && i < MAXIMUM_PEERS
      modifies this, entries
      ensures Abs() == FinishClear(old(Abs()), i, result)
    {
      log := log + [Ended(entries[i].address, false, result)];
      if result != Ok {
        log := log + [HandedOff({entries[i].address})];
      }
      entries[i] := EMPTY;
      assert entries[..] == old(entries[..])[i := EMPTY];
    }

    /** Drops every reference without a hardware command. */
    method Abandon()
      requires Valid()
      modifies this, entries
      ensures Valid() && Abs() == AbandonNow(old(Abs()))
    {
      active := false;
      if busy || closing {
        abandonPending := true;
        log := log + [Deferred(Forget)];
        return;
      }
      ForgetAll();
    }

    method ForgetAll()
      requires Valid()
      modifies this, entries
      ensures Valid() && Abs() == Forgotten(old(Abs()))
    {
      log := log + [HandedOff(Installed(entries[..]))];
      EmptyEntries();
      trafficPeer := ZERO_ADDRESS;
      attached, bound := false, false;
      abandonPending, shutdownPending, disablePending := false, false, false;
    }

    method EmptyEntries()
      requires Valid()
      modifies entries
      ensures entries[..] == Empties(MAXIMUM_PEERS)
    {
      for i := 0 to entries.Length
        invariant forall k :: 0 <= k < i ==> entries[k] == EMPTY
      {
        entries[i] := EMPTY;
      }
    }

    /** The transaction guard's destructor; `result` is what the transaction returns. */
    method EndTransaction(answers: seq<Answer>, ghost result: IOReturn)
      requires Valid() && busy && !closing
      modifies this, entries
      ensures Valid() && Point(Abs(), Done(result)) == Drive(Peers.EndTransaction(old(Abs()), result), answers)
      decreases Load(answers), 6
    {
      busy := false;
      if abandonPending {
        Abandon();
      } else if shutdownPending {
        Clear(true, answers, Some(result));
      } else if disablePending {
        Clear(false, answers, Some(result));
      }
    }

    // -----------------------------------------------------------------------
    // Requests
    // -----------------------------------------------------------------------

    method Bind(native: bool, address: Address, current: Option<Address>, hardware: nat) returns (result: IOReturn)
      requires Valid()
      modifies this
      ensures Valid() && Point(Abs(), Done(result)) == BeginBind(old(Abs()), native, address, current, hardware)
    {
      if busy || closing || bound {
        return Busy;
      }
      if !native || !Unicast(address) {
        return BadArgument;
      }
      if current != Some(address) {
        return BadArgument;
      }
      if hardware == 0 {
        return NotReady;
      }
      attached, bound, active, fault, lastError := true, true, false, false, Success;
      log := log + [Bound];
      return Success;
    }

    method Enable(value: bool, hardware: nat, answers: seq<Answer>) returns (result: IOReturn)
      requires Valid()
      modifies this, entries
      ensures Valid() && Point(Abs(), Done(result)) == Drive(BeginEnable(old(Abs()), value, hardware), answers)
      decreases Load(answers), 9
    {
      if !value {
        active := false;
        if busy {
          disablePending := true;
          log := log + [Deferred(Disable)];
          return Success;
        }
        Clear(false, answers, None);
        return lastError;
      }
      if busy || closing {
        return Busy;
      }
      if !bound || !attached || fault || hardware == 0 {
        return NotReady;
      }
      active := true;
      return Success;
    }

    method Shutdown(answers: seq<Answer>)
      requires Valid()
      modifies this, entries
      ensures Valid() && Point(Abs(), Done(Success)) == Drive(BeginShutdown(old(Abs())), answers)
      decreases Load(answers), 9
    {
      active := false;
      if busy || closing {
        shutdownPending := true;
        log := log + [Deferred(Close)];
        return;
      }
      Clear(true, answers, Some(Success));
    }

    method Slots() returns (count: nat, empty: Option<nat>)
      requires Valid()
      ensures count == UsedFrom(entries[..], 0) && empty == FreeFrom(entries[..], 0)
    {
      count, empty := 0, None;
      var i := 0;
      while i < entries.Length
        invariant 0 <= i <= entries.Length
        invariant count + UsedFrom(entries[..], i) == UsedFrom(entries[..], 0)
        invariant (if empty.Some? then empty else FreeFrom(entries[..], i)) == FreeFrom(entries[..], 0)
      {
        if entries[i].used {
          count := count + 1;
        } else if empty.None? {
          empty := Some(i);
        }
        i := i + 1;
      }
    }

    method Install(address: Address, hardware: nat, answers: seq<Answer>)
      returns (index: nat, status: IOReturn, rest: seq<Answer>)
      requires Valid() && busy && !closing
      modifies this, entries
      ensures Valid() && busy && !closing && Load(rest) <= Load(answers)
      ensures var slot := Reserve(old(Abs()), address, hardware);
        if slot.Fresh? then
          && index == slot.index && status == Status(First(answers).result) && rest == Rest(answers)
          && Abs() == FinishAdd(CallOut(StartAdd(old(Abs()), index, address), First(answers).requests),
                                index, address, First(answers).result)
        else
          && Abs() == old(Abs()) && rest == answers
          && (slot.Held? ==> status == Success && index == slot.index)
          && (slot.Refused? ==> status == slot.result)
      decreases Load(answers), 3
    {
      index, rest := 0, answers;
      var found := FindEntry(address);
      if found.Some? {
        index := found.value;
        status := if entries[index].installed && !entries[index].retiring then Success else NotReady;
        return;
      }
      var count, empty := Slots();
      var capacity := if bound && !fault then hardware else 0;
      if capacity > MAXIMUM_PEERS {
        capacity := MAXIMUM_PEERS;
      }
      if empty.None? || count >= capacity {
        return 0, NoResources, answers;
      }
      index := empty.value;
      status, rest := Add(index, address, answers);
    }

    method Add(index: nat, address: Address, answers: seq<Answer>) returns (status: IOReturn, rest: seq<Answer>)
      requires Valid() && busy && !closing && index < MAXIMUM_PEERS
      modifies this, entries
      ensures Valid() && busy && !closing && Load(rest) <= Load(answers)
      ensures status == Status(First(answers).result) && rest == Rest(answers)
      ensures Abs() == FinishAdd(CallOut(StartAdd(old(Abs()), index, address), First(answers).requests),
                                 index, address, First(answers).result)
      decreases Load(answers), 2
    {
      LoadSplits(answers);
      entries[index] := entries[index].(used := true, address := address);
      assert Abs().Log(Began(address, true)) == StartAdd(old(Abs()), index, address);
      var result;
      result, rest := SetAwdlPeer(address, true, answers);
      RecordAdd(index, address, result);
      status := lastError;
    }

    method RecordAdd(index: nat, address: Address, result: PeerResult)
      requires Valid() && index < MAXIMUM_PEERS
      modifies this, entries
      ensures Abs() == FinishAdd(old(Abs()), index, address, result)
    {
      lastError := Status(result);
      log := log + [Ended(address, true, result)];
      fault := fault || result == RecoveryRequired;
      entries[index] := AfterAdd(entries[index], result);
      ghost var t := FinishAdd(old(Abs()), index, address, result);
      assert entries[..] == t.entries;
      assert fault == t.fault;
    }

    method Remove(index: nat, answers: seq<Answer>) returns (status: IOReturn, rest: seq<Answer>)
      requires Valid() && busy && !closing && index < MAXIMUM_PEERS
      modifies this, entries
      ensures Valid() && busy && !closing && Load(rest) <= Load(answers)
      ensures status == Status(First(answers).result) && rest == Rest(answers)
      ensures Abs() == FinishRemove(CallOut(StartRemove(old(Abs()), index), First(answers).requests),
                                    index, First(answers).result)
      decreases Load(answers), 2
    {
      LoadSplits(answers);
      entries[index] := entries[index].(retiring := true);
      assert Abs().Log(Began(entries[index].address, false)) == StartRemove(old(Abs()), index);
      var result;
      result, rest := SetAwdlPeer(entries[index].address, false, answers);
      RecordRemove(index, result);
      status := lastError;
    }

    method RecordRemove(index: nat, result: PeerResult)
      requires Valid() && index < MAXIMUM_PEERS
      modifies this, entries
      ensures Abs() == FinishRemove(old(Abs()), index, result)
    {
      lastError := Status(result);
      log := log + [Ended(entries[index].address, false, result)];
      if lastError != Success {
        fault := true;
      } else {
        entries[index] := EMPTY;
      }
      ghost var t := FinishRemove(old(Abs()), index, result);
      assert entries[..] == t.entries;
      assert fault == t.fault;
    }

    /** The native cache completion, and what a refusal undoes. */
    method Offer(index: nat, peer: Address, add: bool, previous: Entry, answers: seq<Answer>)
      returns (result: IOReturn, rest: seq<Answer>)
      requires Valid() && busy && !closing && index < MAXIMUM_PEERS
      modifies this, entries
      ensures Valid() && busy && !closing && Load(rest) <= Load(answers)
      ensures Drive(Point(old(Abs()), Posting(index, peer, add, previous)), answers)
              == Drive(Peers.EndTransaction(Abs(), result), rest)
      decreases Load(answers), 7
    {
      LoadSplits(answers);
      Reenter(First(answers).requests);
      var delivered := First(answers).result == Ok;
      rest := Rest(answers);
      log := log + [Completed(peer, add, delivered)];
      PostingStep(old(Abs()), Abs(), index, peer, add, previous, answers);
      if delivered {
        return Success, rest;
      }
      if add {
        rest := Undo(index, previous, rest);
      }
      return NotReady, rest;
    }

    method Undo(index: nat, previous: Entry, answers: seq<Answer>) returns (rest: seq<Answer>)
      requires Valid() && busy && !closing && index < MAXIMUM_PEERS
      modifies this, entries
      ensures Valid() && busy && !closing && Load(rest) <= Load(answers)
      ensures Drive(UndoCache(old(Abs()), index, previous), answers)
              == Drive(Peers.EndTransaction(Abs(), NotReady), rest)
      decreases Load(answers), 6
    {
      entries[index] := entries[index].(cached := previous.cached);
      ghost var s := Abs();
      assert s == old(Abs()).Put(index, old(Abs()).entries[index].(cached := previous.cached));
      rest := answers;
      if !previous.installed && !entries[index].traffic {
        var status;
        status, rest := Remove(index, answers);
        RemovingStep(StartRemove(s, index), Abs(), index, 0, answers);
      }
    }

    /** The body of a cache-add, inside its transaction. */
    method CacheAddBody(peer: Address, hardware: nat, answers: seq<Answer>)
      returns (result: IOReturn, rest: seq<Answer>)
      requires Valid() && busy && !closing
      modifies this, entries
      ensures Valid() && busy && !closing && Load(rest) <= Load(answers)
      ensures Drive(CacheAdd(old(Abs()), peer, hardware), answers) == Drive(Peers.EndTransaction(Abs(), result), rest)
      decreases Load(answers), 8
    {
      var i := FindEntry(peer);
      var previous := if i.Some? then entries[i.value] else EMPTY;
      ghost var slot := Reserve(Abs(), peer, hardware);
      var index, status;
      index, status, rest := Install(peer, hardware, answers);
      if slot.Fresh? {
        AddingStep(StartAdd(old(Abs()), index, peer), Abs(), index, peer, answers);
      }
      if status != Success {
        return status, rest;
      }
      assert Drive(CacheAdd(old(Abs()), peer, hardware), answers) ==
        Drive(CacheInstalled(Abs(), index, peer, previous), rest);
      result, rest := CacheInstalledBody(index, peer, previous, rest);
    }

    method CacheInstalledBody(index: nat, peer: Address, previous: Entry, answers: seq<Answer>)
      returns (result: IOReturn, rest: seq<Answer>)
      requires Valid() && busy && !closing && index < MAXIMUM_PEERS
      modifies this, entries
      ensures Valid() && busy && !closing && Load(rest) <= Load(answers)
      ensures Drive(CacheInstalled(old(Abs()), index, peer, previous), answers) ==
        Drive(Peers.EndTransaction(Abs(), result), rest)
      decreases Load(answers), 8, 0
    {
      if !active || shutdownPending {
        return NotReady, answers;
      }
      entries[index] := entries[index].(cached := true);
      assert Abs() == old(Abs()).Put(index, old(Abs()).entries[index].(cached := true));
      result, rest := Offer(index, peer, true, previous, answers);
    }

    /** The body of a cache-remove, inside its transaction. */
    method CacheRemoveBody(peer: Address, answers: seq<Answer>) returns (result: IOReturn, rest: seq<Answer>)
      requires Valid() && busy && !closing
      modifies this, entries
      ensures Valid() && busy && !closing && Load(rest) <= Load(answers)
      ensures Drive(CacheRemove(old(Abs()), peer), answers) == Drive(Peers.EndTransaction(Abs(), result), rest)
      decreases Load(answers), 8
    {
      var i := FindEntry(peer);
      rest := answers;
      if i.Some? {
        entries[i.value] := entries[i.value].(cached := false); // revoke data at once, even if the removal fails
        ghost var s := Abs();
        assert s == old(Abs()).Put(i.value, old(Abs()).entries[i.value].(cached := false));
        if !entries[i.value].traffic {
          var status;
          status, rest := Remove(i.value, answers);
          RemovingStep(StartRemove(s, i.value), Abs(), i.value, peer, answers);
          if status != Success {
            return status, rest;
          }
        }
      }
      result, rest := CacheRemovedBody(peer, rest);
    }

    method CacheRemovedBody(peer: Address, answers: seq<Answer>) returns (result: IOReturn, rest: seq<Answer>)
      requires Valid() && busy && !closing
      modifies this, entries
      ensures Valid() && busy && !closing && Load(rest) <= Load(answers)
      ensures Drive(CacheRemoved(old(Abs()), peer), answers) == Drive(Peers.EndTransaction(Abs(), result), rest)
      decreases Load(answers), 8, 0
    {
      if !active || shutdownPending {
        return NotReady, answers;
      }
      result, rest := Offer(0, peer, false, EMPTY, answers);
    }

    method Cache(operation: nat, address: Address, q: Query, answers: seq<Answer>) returns (result: IOReturn)
      requires Valid()
      modifies this, entries
      ensures Valid() && Point(Abs(), Done(result)) == Drive(BeginCache(old(Abs()), operation, address, q), answers)
      decreases Load(answers), 9
    {
      if !bound || !active || !attached || !q.canPost {
        return NotReady;
      }
      if busy || closing {
        return Busy;
      }
      if !Unicast(address) || !attached || q.local.None? || !Unicast(q.local.value) || q.local.value == address {
        return BadArgument;
      }
      if operation != 0 && operation != 2 && operation != 6 {
        return Unsupported;
      }
      var add := operation != 2;
      if add && (fault || q.capacity == 0) {
        return NotReady;
      }
      busy := true;
      var rest;
      if add {
        result, rest := CacheAddBody(address, q.capacity, answers);
      } else {
        result, rest := CacheRemoveBody(address, answers);
      }
      EndTransaction(rest, result);
    }

    /** The body of a traffic registration, inside its transaction. */
    method TrafficAddBody(peer: Address, hardware: nat, answers: seq<Answer>)
      returns (result: IOReturn, rest: seq<Answer>)
      requires Valid() && busy && !closing
      modifies this, entries
      ensures Valid() && busy && !closing && Load(rest) <= Load(answers)
      ensures Drive(TrafficAdd(old(Abs()), peer, hardware), answers) == Drive(Peers.EndTransaction(Abs(), result), rest)
      decreases Load(answers), 8
    {
      ghost var slot := Reserve(Abs(), peer, hardware);
      var index, status;
      index, status, rest := Install(peer, hardware, answers);
      if slot.Fresh? {
        AddingStep(StartAdd(old(Abs()), index, peer), Abs(), index, peer, answers);
      }
      if status != Success {
        return status, rest;
      }
      assert Drive(TrafficAdd(old(Abs()), peer, hardware), answers) ==
        Drive(TrafficInstalled(Abs(), index, peer), rest);
      result, rest := TrafficInstalledBody(index, peer, rest);
    }

    method TrafficInstalledBody(index: nat, peer: Address, answers: seq<Answer>)
      returns (result: IOReturn, rest: seq<Answer>)
      requires Valid() && busy && !closing && index < MAXIMUM_PEERS
      modifies this, entries
      ensures Valid() && busy && !closing && Load(rest) <= Load(answers)
      ensures Drive(TrafficInstalled(old(Abs()), index, peer), answers) ==
        Drive(Peers.EndTransaction(Abs(), result), rest)
      decreases Load(answers), 8, 1
    {
      if !active || shutdownPending {
        return NotReady, answers;
      }
      entries[index] := entries[index].(traffic := true);
      assert Abs() == old(Abs()).Put(index, old(Abs()).entries[index].(traffic := true));
      result, rest := Choose(Some(index), peer, answers);
    }

    /** Moves the traffic reference and lets go of the entry that had it. */
    method Choose(next: Option<nat>, peer: Address, answers: seq<Answer>) returns (result: IOReturn, rest: seq<Answer>)
      requires Valid() && busy && !closing
      modifies this, entries
      ensures Valid() && busy && !closing && Load(rest) <= Load(answers)
      ensures Drive(TrafficChosen(old(Abs()), next, peer), answers) == Drive(Peers.EndTransaction(Abs(), result), rest)
      decreases Load(answers), 8, 0
    {
      var was := FindEntry(trafficPeer);
      if was.Some? && was != next {
        result, rest := Release(was.value, next, peer, answers);
        return;
      }
      trafficPeer := peer;
      assert Abs() == old(Abs()).(trafficPeer := peer);
      return if active && !shutdownPending then Success else NotReady, answers;
    }

    method Release(was: nat, next: Option<nat>, peer: Address, answers: seq<Answer>)
      returns (result: IOReturn, rest: seq<Answer>)
      requires Valid() && busy && !closing && Find(entries[..], trafficPeer) == Some(was) && Some(was) != next
      modifies this, entries
      ensures Valid() && busy && !closing && Load(rest) <= Load(answers)
      ensures Drive(TrafficChosen(old(Abs()), next, peer), answers) == Drive(Peers.EndTransaction(Abs(), result), rest)
      decreases Load(answers), 7
    {
      trafficPeer := peer;
      entries[was] := entries[was].(traffic := false);
      ghost var u := Abs();
      assert u == old(Abs()).(trafficPeer := peer).Put(was, old(Abs()).entries[was].(traffic := false));
      if entries[was].cached {
        return if active && !shutdownPending then Success else NotReady, answers;
      }
      result, rest := LetGo(was, answers);
    }

    method LetGo(was: nat, answers: seq<Answer>) returns (result: IOReturn, rest: seq<Answer>)
      requires Valid() && busy && !closing && was < MAXIMUM_PEERS
      modifies this, entries
      ensures Valid() && busy && !closing && Load(rest) <= Load(answers)
      ensures Drive(Point(StartRemove(old(Abs()), was), RemovingForTraffic(was)), answers)
              == Drive(Peers.EndTransaction(Abs(), result), rest)
      decreases Load(answers), 6
    {
      var status;
      status, rest := Remove(was, answers);
      RemovingStep(StartRemove(old(Abs()), was), Abs(), was, 0, answers);
      if status != Success {
        return status, rest;
      }
      return if active && !shutdownPending then Success else NotReady, rest;
    }

    method Traffic(d: Registration, q: Query, answers: seq<Answer>) returns (result: IOReturn)
      requires Valid()
      modifies this, entries
      ensures Valid() && Point(Abs(), Done(result)) == Drive(BeginTraffic(old(Abs()), d, q), answers)
      decreases Load(answers), 9
    {
      if !bound || !active {
        return NotReady;
      }
      if busy || closing {
        return Busy;
      }
      if !d.wellFormed || (d.active && (!Unicast(d.address)
          || !attached || q.local.None? || !Unicast(q.local.value) || q.local.value == d.address)) {
        return BadArgument;
      }
      if d.active && (fault || q.capacity == 0) {
        return NotReady;
      }
      busy := true;
      var rest;
      if d.active {
        result, rest := TrafficAddBody(d.address, q.capacity, answers);
      } else {
        result, rest := Choose(None, ZERO_ADDRESS, answers);
      }
      EndTransaction(rest, result);
    }
  }

  lemma SweepIsDone(s: State, unbind: bool, failure: IOReturn, reply: Option<IOReturn>)
    requires |s.entries| == MAXIMUM_PEERS
    ensures ClearFrom(s, MAXIMUM_PEERS, unbind, failure, reply) == ClearEnd(s, unbind, failure, reply)
  {
    assert Swept(s.entries, MAXIMUM_PEERS, MAXIMUM_PEERS) == s.entries;
  }

  lemma SlotIsSkipped(s: State, t: State, i: nat, unbind: bool, failure: IOReturn, reply: Option<IOReturn>)
    requires |s.entries| == MAXIMUM_PEERS && i < MAXIMUM_PEERS && !(s.entries[i].used && s.entries[i].installed)
    requires t == s.Put(i, EMPTY) && |t.entries| == MAXIMUM_PEERS
    ensures ClearFrom(t, i + 1, unbind, failure, reply) == ClearFrom(s, i, unbind, failure, reply)
  {
    SkipSlot(s.entries, i);
    var j := NextInstalled(s.entries, i);
    SameSweep(s, t, i, i + 1, j, unbind, failure, reply);
  }

  lemma SameSweep(s: State, t: State, i: nat, k: nat, j: nat, unbind: bool, failure: IOReturn, reply: Option<IOReturn>)
    requires |s.entries| == |t.entries| == MAXIMUM_PEERS && i <= j <= MAXIMUM_PEERS && k <= j
    requires NextInstalled(s.entries, i) == j == NextInstalled(t.entries, k)
    requires Swept(s.entries, i, j) == Swept(t.entries, k, j) && t == s.(entries := t.entries)
    ensures ClearFrom(t, k, unbind, failure, reply) == ClearFrom(s, i, unbind, failure, reply)
  {
    assert t.(entries := Swept(t.entries, k, j)) == s.(entries := Swept(s.entries, i, j));
  }

  lemma RemovalIsNext(s: State, i: nat, unbind: bool, failure: IOReturn, reply: Option<IOReturn>)
    requires |s.entries| == MAXIMUM_PEERS && i < MAXIMUM_PEERS && s.entries[i].used && s.entries[i].installed
    ensures ClearFrom(s, i, unbind, failure, reply)
            == Point(s.Log(Began(s.entries[i].address, false)), Clearing(i, unbind, failure, reply))
  {
    assert Swept(s.entries, i, i) == s.entries;
  }

  lemma RemovedSlot(s: State, t: State, i: nat, unbind: bool, failure: IOReturn, reply: Option<IOReturn>,
    answers: seq<Answer>)
    requires |s.entries| == MAXIMUM_PEERS && i < MAXIMUM_PEERS && s.entries[i].used && s.entries[i].installed
    requires var called := CallOut(s.Log(Began(s.entries[i].address, false)), First(answers).requests);
      t == FinishClear(called, i, First(answers).result)
    ensures |t.entries| == MAXIMUM_PEERS
    ensures var worst := if First(answers).result == Ok then failure else Status(First(answers).result);
      Drive(ClearFrom(t, i + 1, unbind, worst, reply), Rest(answers))
      == Drive(ClearFrom(s, i, unbind, failure, reply), answers)
  {
    RemovalIsNext(s, i, unbind, failure, reply);
  }

  lemma PostingStep(s: State, t: State, index: nat, peer: Address, add: bool, previous: Entry, answers: seq<Answer>)
    requires |s.entries| == MAXIMUM_PEERS && index < MAXIMUM_PEERS
    requires t == CallOut(s, First(answers).requests).Log(Completed(peer, add, First(answers).result == Ok))
    ensures |t.entries| == MAXIMUM_PEERS
    ensures Drive(Point(s, Posting(index, peer, add, previous)), answers)
            == Drive(CachePosted(t, index, add, previous, First(answers).result), Rest(answers))
  {
    PostingResumes(CallOut(s, First(answers).requests), t, index, peer, add, previous, First(answers).result);
  }

  lemma PostingResumes(s: State, t: State, index: nat, peer: Address, add: bool, previous: Entry, result: PeerResult)
    requires |s.entries| == MAXIMUM_PEERS && index < MAXIMUM_PEERS && t == s.Log(Completed(peer, add, result == Ok))
    ensures |t.entries| == MAXIMUM_PEERS
    ensures Resume(s, Posting(index, peer, add, previous), result) == CachePosted(t, index, add, previous, result)
  {
  }

  lemma AddingStep(s: State, t: State, i: nat, a: Address, answers: seq<Answer>)
    requires |s.entries| == MAXIMUM_PEERS && i < MAXIMUM_PEERS
    requires t == FinishAdd(CallOut(s, First(answers).requests), i, a, First(answers).result)
    ensures |t.entries| == MAXIMUM_PEERS
    ensures Drive(Point(s, AddingForCache(i, a)), answers) ==
      Drive(CacheAdded(t, i, a, First(answers).result), Rest(answers))
    ensures Drive(Point(s, AddingForTraffic(i, a)), answers) ==
      Drive(TrafficAdded(t, i, a, First(answers).result), Rest(answers))
  {
  }

  lemma RemovingStep(s: State, t: State, i: nat, a: Address, answers: seq<Answer>)
    requires |s.entries| == MAXIMUM_PEERS && i < MAXIMUM_PEERS
    requires t == FinishRemove(CallOut(s, First(answers).requests), i, First(answers).result)
    ensures |t.entries| == MAXIMUM_PEERS
    ensures Drive(Point(s, RemovingForCache(i, a)), answers) ==
      Drive(CacheCleared(t, i, a, First(answers).result), Rest(answers))
    ensures Drive(Point(s, RemovingForTraffic(i)), answers) ==
      Drive(TrafficCleared(t, First(answers).result), Rest(answers))
    ensures Drive(Point(s, Unwinding(i)), answers) == Drive(EndTransaction(t, NotReady), Rest(answers))
  {
  }

  lemma SkipSlot(es: seq<Entry>, i: nat)
    requires i < |es| && !(es[i].used && es[i].installed)
    ensures NextInstalled(es[i := EMPTY], i + 1) == NextInstalled(es, i)
    ensures Swept(es[i := EMPTY], i + 1, NextInstalled(es, i)) == Swept(es, i, NextInstalled(es, i))
  {
    SameFrom(es, es[i := EMPTY], i + 1);
  }

  lemma {:induction false} SameFrom(es: seq<Entry>, fs: seq<Entry>, i: nat)
    requires |es| == |fs| && i <= |es| && forall k :: i <= k < |es| ==> es[k] == fs[k]
    ensures NextInstalled(es, i) == NextInstalled(fs, i)
    decreases |es| - i
  {
    if i < |es| {
      SameFrom(es, fs, i + 1);
    }
  }
}
