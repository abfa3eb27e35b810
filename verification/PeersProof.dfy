/** What the peer owner keeps across every call, call-out and re-entrant request. */
module PeersProof {
  import opened Common
  import opened Peers

  // -------------------------------------------------------------------------
  // The log
  // -------------------------------------------------------------------------

  predicate Quiet(e: Event) {
    e.Asked? || e.Deferred? || e.Completed?
  }

  lemma QuietEvent(log: seq<Event>, e: Event)
    requires Quiet(e)
    ensures Holds(log + [e]) == Holds(log) && Orphans(log + [e]) == Orphans(log)
    ensures Faulted(log + [e]) == Faulted(log)
    ensures forall a :: Latest(log + [e], a) == Latest(log, a)
    ensures LawfulLog(log + [e]) == (LawfulLog(log) && Lawful(log, e))
  {
    Logged(log, e);
  }

  lemma BeganEvent(log: seq<Event>, e: Event)
    requires e.Began?
    ensures Holds(log + [e]) == Holds(log) && Orphans(log + [e]) == Orphans(log)
    ensures Faulted(log + [e]) == Faulted(log)
    ensures forall a :: a != e.address ==> Latest(log + [e], a) == Latest(log, a)
    ensures LawfulLog(log + [e]) == (LawfulLog(log) && Lawful(log, e))
  {
    Logged(log, e);
  }

  lemma EndedEvent(log: seq<Event>, e: Event)
    requires e.Ended?
    ensures Holds(log + [e]) ==
      if e.add && (e.result == Ok || e.result == RecoveryRequired) then Holds(log) + {e.address}
      else if !e.add && e.result == Ok then Holds(log) - {e.address}
      else Holds(log)
    ensures Orphans(log + [e]) == if !e.add && e.result == Ok then Orphans(log) - {e.address} else Orphans(log)
    ensures Faulted(log + [e]) == (Faulted(log) || (if e.add then e.result == RecoveryRequired else e.result != Ok))
    ensures forall a :: Latest(log + [e], a) == if a == e.address then Some(e) else Latest(log, a)
    ensures LawfulLog(log + [e]) == (LawfulLog(log) && Lawful(log, e))
  {
    Logged(log, e);
  }

  lemma HandedOffEvent(log: seq<Event>, addresses: set<Address>)
    ensures var e := HandedOff(addresses);
      && Holds(log + [e]) == Holds(log) && Orphans(log + [e]) == Orphans(log) + addresses
      && Faulted(log + [e]) == Faulted(log) && LawfulLog(log + [e]) == LawfulLog(log)
      && forall a :: Latest(log + [e], a) == Latest(log, a)
  {
    Logged(log, HandedOff(addresses));
  }

  lemma BoundEvent(log: seq<Event>)
    ensures Holds(log + [Bound]) == Holds(log) && Orphans(log + [Bound]) == Orphans(log)
    ensures !Faulted(log + [Bound]) && LawfulLog(log + [Bound]) == LawfulLog(log)
    ensures forall a :: Latest(log + [Bound], a) == Latest(log, a)
  {
    Logged(log, Bound);
  }

  // -------------------------------------------------------------------------
  // The table
  // -------------------------------------------------------------------------

  lemma FindIs(es: seq<Entry>, i: nat, adding: int)
    requires Table(es, adding) && i < |es| && es[i].used
    ensures Find(es, es[i].address) == Some(i)
  {
    assert Find(es, es[i].address).Some?;
  }

  /** Emptying a slot takes its peer, if any, out of the installed set. */
  lemma InstalledWithout(es: seq<Entry>, i: nat, adding: int)
    requires Table(es, adding) && i < |es|
    ensures Table(es[i := EMPTY], adding)
    ensures Installed(es[i := EMPTY]) == Installed(es) - (if es[i].used then {es[i].address} else {})
  {
    var fs := es[i := EMPTY];
    forall a | a in Installed(es) && (es[i].used ==> a != es[i].address) ensures a in Installed(fs) {
      var k :| 0 <= k < |es| && es[k].used && es[k].installed && es[k].address == a;
      assert fs[k] == es[k];
    }
    forall a | a in Installed(fs) ensures a in Installed(es) && (es[i].used ==> a != es[i].address) {
      var k :| 0 <= k < |fs| && fs[k].used && fs[k].installed && fs[k].address == a;
      assert fs[k] == es[k] && k != i;
    }
  }

  /** Changing only the flags of a used slot keeps the table; the installed set follows. */
  lemma InstalledWith(es: seq<Entry>, i: nat, e: Entry, adding: int, next: int)
    requires Table(es, adding) && i < |es| && es[i].used
    requires e.used && e.address == es[i].address
    requires e.installed || (i == next && !e.cached && !e.traffic && !e.retiring)
    requires e.retiring ==> !e.cached && !e.traffic
    requires adding == i || adding == next
    ensures Table(es[i := e], next)
    ensures Installed(es[i := e]) == if e.installed then Installed(es) + {e.address} else Installed(es) - {e.address}
  {
    var fs := es[i := e];
    forall a | a in Installed(es) && a != e.address ensures a in Installed(fs) {
      var k :| 0 <= k < |es| && es[k].used && es[k].installed && es[k].address == a;
      assert fs[k] == es[k];
    }
    forall a | a in Installed(fs) && a != e.address ensures a in Installed(es) {
      var k :| 0 <= k < |fs| && fs[k].used && fs[k].installed && fs[k].address == a;
      assert fs[k] == es[k];
    }
    if e.installed {
      assert fs[i].used && fs[i].installed;
    } else {
      forall k | 0 <= k < |fs| && fs[k].used && fs[k].installed ensures fs[k].address != e.address {
        assert fs[k] == es[k];
      }
    }
  }

  /** Taking a free slot for an address that is not in the table. */
  lemma InstalledFresh(es: seq<Entry>, i: nat, a: Address)
    requires Table(es, -1) && i < |es| && !es[i].used && Unicast(a) && Find(es, a) == None
    ensures Table(es[i := es[i].(used := true, address := a)], i)
    ensures Installed(es[i := es[i].(used := true, address := a)]) == Installed(es)
  {
    var fs := es[i := es[i].(used := true, address := a)];
    forall b | b in Installed(es) ensures b in Installed(fs) {
      var k :| 0 <= k < |es| && es[k].used && es[k].installed && es[k].address == b;
      assert fs[k] == es[k];
    }
    forall b | b in Installed(fs) ensures b in Installed(es) {
      var k :| 0 <= k < |fs| && fs[k].used && fs[k].installed && fs[k].address == b;
      assert fs[k] == es[k];
    }
  }

  // -------------------------------------------------------------------------
  // The invariant at every point
  // -------------------------------------------------------------------------

  predicate Adding(s: State, i: nat, a: Address) {
    && Core(s, i, -1, false) && s.busy && !s.closing && s.bound && i < MAXIMUM_PEERS
    && s.entries[i].used && s.entries[i].address == a && !s.entries[i].installed
  }

  predicate Removing(s: State, i: nat) {
    AtWork(s) && i < MAXIMUM_PEERS && s.entries[i].used && s.entries[i].installed && s.entries[i].retiring
  }

  /** The entry being offered to the native cache, and the entry it was before. */
  predicate Offered(s: State, i: nat, a: Address, previous: Entry) {
    && AtWork(s) && i < MAXIMUM_PEERS
    && s.entries[i] == Entry(a, true, true, previous.traffic, true, false)
    && (previous == EMPTY || previous == s.entries[i].(cached := previous.cached))
  }

  predicate At(p: Point) {
    match p.pc
    case Done(_) => AtRest(p.state)
    case AddingForCache(i, a) => Adding(p.state, i, a)
    case AddingForTraffic(i, a) => Adding(p.state, i, a)
    case RemovingForCache(i, _) => Removing(p.state, i)
    case RemovingForTraffic(i) => Removing(p.state, i)
    case Unwinding(i) => Removing(p.state, i)
    case Posting(i, a, add, previous) =>
      AtWork(p.state) && i < MAXIMUM_PEERS && (add ==> Offered(p.state, i, a, previous))
    case Clearing(i, _, failure, _) =>
      InClear(p.state, i, i, failure) && i < MAXIMUM_PEERS && p.state.entries[i].used && p.state.entries[i].installed
  }

  // -------------------------------------------------------------------------
  // Teardown
  // -------------------------------------------------------------------------

  lemma EmptyTable()
    ensures Table(Empties(MAXIMUM_PEERS), -1) && Installed(Empties(MAXIMUM_PEERS)) == {}
  {
  }

  lemma ForgottenRests(s: State)
    requires Core(s, -1, -1, false) && s.Resting() && !s.active
    ensures AtRest(Forgotten(s)) && !Forgotten(s).bound
  {
    EmptyTable();
    HandedOffEvent(s.log, Installed(s.entries));
  }

  lemma ClearEndRests(s: State, unbind: bool, failure: IOReturn, reply: Option<IOReturn>)
    requires InClear(s, MAXIMUM_PEERS, -1, failure) && !s.active
    ensures AtRest(ClearEnd(s, unbind, failure, reply).state)
  {
    assert s.entries == Empties(MAXIMUM_PEERS);
  }

  lemma ClearFromKeeps(s: State, i: nat, unbind: bool, failure: IOReturn, reply: Option<IOReturn>)
    requires i <= MAXIMUM_PEERS && InClear(s, i, -1, failure) && !s.active
    ensures At(ClearFrom(s, i, unbind, failure, reply))
  {
    var j := NextInstalled(s.entries, i);
    SweptIsSame(s.entries, i, j);
    assert s.(entries := Swept(s.entries, i, j)) == s;
    if j == MAXIMUM_PEERS {
      ClearEndRests(s, unbind, failure, reply);
    } else {
      ClearBegins(s, j, unbind, failure, reply);
    }
  }

  lemma SweptIsSame(es: seq<Entry>, i: nat, j: nat)
    requires Table(es, -1) && i <= j <= |es| && forall k :: i <= k < j ==> !(es[k].used && es[k].installed)
    ensures Swept(es, i, j) == es && forall k :: i <= k < j ==> es[k] == EMPTY
  {
  }

  lemma ClearBegins(s: State, i: nat, unbind: bool, failure: IOReturn, reply: Option<IOReturn>)
    requires i < MAXIMUM_PEERS && InClear(s, i, -1, failure) && s.entries[i].used && s.entries[i].installed
    ensures At(Point(s.Log(Began(s.entries[i].address, false)), Clearing(i, unbind, failure, reply)))
  {
    BeganEvent(s.log, Began(s.entries[i].address, false));
  }

  lemma ClearKeeps(s: State, unbind: bool, reply: Option<IOReturn>)
    requires Core(s, -1, -1, false) && s.Resting()
    ensures At(Clear(s, unbind, reply))
  {
    ClearFromKeeps(s.(closing := true, active := false), 0, unbind, Success, reply);
  }

  lemma EndTransactionKeeps(s: State, result: IOReturn)
    requires AtWork(s)
    ensures At(EndTransaction(s, result))
  {
    var t := s.(busy := false);
    if t.abandonPending {
      ForgottenRests(t);
    } else if t.shutdownPending {
      ClearKeeps(t, true, Some(result));
    } else if t.disablePending {
      ClearKeeps(t, false, Some(result));
    }
  }

  // -------------------------------------------------------------------------
  // Call-outs of a transaction
  // -------------------------------------------------------------------------

  lemma TrafficKept(s: State, i: nat, e: Entry, adding: int, next: int)
    requires OneTraffic(s) && Table(s.entries, adding) && i < |s.entries| && Table(s.entries[i := e], next)
    requires e.traffic == s.entries[i].traffic
    requires e.traffic ==> e.used && e.address == s.entries[i].address
    ensures OneTraffic(s.Put(i, e))
  {
    var k := Find(s.entries, s.trafficPeer);
    if !s.closing && s.trafficPeer != ZERO_ADDRESS {
      FindIs(s.entries[i := e], k.value, next);
    }
  }

  lemma StartAddKeeps(s: State, i: nat, a: Address)
    requires AtWork(s) && !s.fault && Unicast(a) && Find(s.entries, a) == None
    requires i < MAXIMUM_PEERS && !s.entries[i].used
    ensures Adding(StartAdd(s, i, a), i, a)
  {
    var e := s.entries[i].(used := true, address := a);
    InstalledFresh(s.entries, i, a);
    TrafficKept(s, i, e, -1, i);
    BeganEvent(s.log, Began(a, true));
  }

  lemma StartRemoveKeeps(s: State, i: nat)
    requires AtWork(s) && i < MAXIMUM_PEERS && s.entries[i].used
    requires s.entries[i].installed && !s.entries[i].cached && !s.entries[i].traffic
    ensures Removing(StartRemove(s, i), i)
  {
    var e := s.entries[i].(retiring := true);
    InstalledWith(s.entries, i, e, -1, -1);
    TrafficKept(s, i, e, -1, -1);
    BeganEvent(s.log, Began(s.entries[i].address, false));
    assert s.entries[i].address in Installed(s.entries);
  }

  lemma FinishAddKeeps(s: State, i: nat, a: Address, result: PeerResult)
    requires Adding(s, i, a)
    ensures AtWork(FinishAdd(s, i, a, result))
    ensures result == Ok ==> FinishAdd(s, i, a, result).entries[i] == Entry(a, true, false, false, true, false)
  {
    var e := FinishAdd(s, i, a, result).entries[i];
    if result == Ok || result == RecoveryRequired {
      InstalledWith(s.entries, i, e, i, -1);
    } else {
      InstalledWithout(s.entries, i, i);
      NotInstalled(s, i);
    }
    TrafficKept(s, i, e, i, -1);
    FinishAddAccounts(s, i, a, result);
  }

  lemma FinishAddAccounts(s: State, i: nat, a: Address, result: PeerResult)
    requires Adding(s, i, a)
    requires Installed(FinishAdd(s, i, a, result).entries) ==
             if result == Ok || result == RecoveryRequired then Installed(s.entries) + {a} else Installed(s.entries)
    ensures Accounts(FinishAdd(s, i, a, result), -1, false)
  {
    EndedEvent(s.log, Ended(a, true, result));
  }

  lemma NotInstalled(s: State, i: nat)
    requires Table(s.entries, i) && i < |s.entries| && s.entries[i].used && !s.entries[i].installed
    ensures s.entries[i].address !in Installed(s.entries)
  {
  }

  lemma FinishRemoveKeeps(s: State, i: nat, result: PeerResult)
    requires Removing(s, i)
    ensures AtWork(FinishRemove(s, i, result))
  {
    FinishRemoveAccounts(s, i, result);
    if result == Ok {
      InstalledWithout(s.entries, i, -1);
      TrafficKept(s, i, EMPTY, -1, -1);
    }
  }

  lemma FinishRemoveAccounts(s: State, i: nat, result: PeerResult)
    requires Removing(s, i)
    ensures Accounts(FinishRemove(s, i, result), -1, false)
  {
    var e := Ended(s.entries[i].address, false, result);
    EndedEvent(s.log, e);
    if result == Ok {
      InstalledWithout(s.entries, i, -1);
      VouchedWithout(s.log, e, s.entries, i, -1);
    }
  }

  lemma VouchedWithout(log: seq<Event>, e: Event, es: seq<Entry>, i: nat, clearing: int)
    requires Table(es, -1) && i < |es| && es[i].used && e.Ended? && e.address == es[i].address
    requires Vouched(log, es, clearing) && (clearing == -1 || clearing == i)
    ensures Vouched(log + [e], es[i := EMPTY], -1)
  {
    EndedEvent(log, e);
    var fs := es[i := EMPTY];
    forall k | 0 <= k < |fs| && fs[k].used && fs[k].installed && !fs[k].retiring
      ensures Latest(log + [e], fs[k].address) == Some(Ended(fs[k].address, true, Ok))
    {
      assert fs[k] == es[k] && k != i;
    }
  }

  lemma FinishClearKeeps(s: State, i: nat, failure: IOReturn, result: PeerResult)
    requires i < MAXIMUM_PEERS && InClear(s, i, i, failure) && s.entries[i].used && s.entries[i].installed
    ensures InClear(FinishClear(s, i, result), i + 1, -1, if result == Ok then failure else Status(result))
  {
    if result == Ok {
      RemovedInClear(s, i, failure);
    } else {
      FailedInClear(s, i, failure, result);
    }
  }

  lemma RemovedInClear(s: State, i: nat, failure: IOReturn)
    requires i < MAXIMUM_PEERS && InClear(s, i, i, failure) && s.entries[i].used && s.entries[i].installed
    ensures InClear(FinishClear(s, i, Ok), i + 1, -1, failure)
  {
    InstalledWithout(s.entries, i, -1);
    FinishClearRemoved(s, i, failure);
    SlotCleared(s, FinishClear(s, i, Ok), i, failure);
  }

  lemma FailedInClear(s: State, i: nat, failure: IOReturn, result: PeerResult)
    requires i < MAXIMUM_PEERS && InClear(s, i, i, failure) && s.entries[i].used && s.entries[i].installed
    requires result != Ok
    ensures InClear(FinishClear(s, i, result), i + 1, -1, Status(result))
  {
    InstalledWithout(s.entries, i, -1);
    FinishClearFailed(s, i, failure, result);
    SlotCleared(s, FinishClear(s, i, result), i, Status(result));
  }

  lemma SlotCleared(s: State, t: State, i: nat, failure: IOReturn)
    requires |s.entries| == MAXIMUM_PEERS && i < MAXIMUM_PEERS && s.closing && !s.busy && OneTraffic(s) && Flags(s)
    requires t == s.(entries := s.entries[i := EMPTY], log := t.log)
    requires Table(t.entries, -1) && Accounts(t, -1, failure != Success)
    requires forall k :: 0 <= k < i ==> s.entries[k] == EMPTY
    ensures InClear(t, i + 1, -1, failure)
  {
    assert !s.bound ==> t.entries == s.entries;
  }

  lemma FinishClearRemoved(s: State, i: nat, failure: IOReturn)
    requires i < MAXIMUM_PEERS && InClear(s, i, i, failure) && s.entries[i].used && s.entries[i].installed
    ensures Accounts(FinishClear(s, i, Ok), -1, failure != Success)
  {
    var e := Ended(s.entries[i].address, false, Ok);
    EndedEvent(s.log, e);
    InstalledWithout(s.entries, i, -1);
    VouchedWithout(s.log, e, s.entries, i, i);
  }

  lemma FinishClearFailed(s: State, i: nat, failure: IOReturn, result: PeerResult)
    requires i < MAXIMUM_PEERS && InClear(s, i, i, failure) && s.entries[i].used && s.entries[i].installed
    requires result != Ok
    ensures Accounts(FinishClear(s, i, result), -1, true)
  {
    var a := s.entries[i].address;
    var e := Ended(a, false, result);
    EndedEvent(s.log, e);
    HandedOffEvent(s.log + [e], {a});
    InstalledWithout(s.entries, i, -1);
    VouchedWithout(s.log, e, s.entries, i, i);
    assert a in Installed(s.entries);
    var log := s.log + [e] + [HandedOff({a})];
    assert FinishClear(s, i, result).log == log;
    assert Holds(log) == Installed(s.entries[i := EMPTY]) + Orphans(log);
    assert Vouched(log, s.entries[i := EMPTY], -1);
  }

  // -------------------------------------------------------------------------
  // Stretches of a transaction between call-outs
  // -------------------------------------------------------------------------

  lemma FlagKept(s: State, i: nat, e: Entry)
    requires AtWork(s) && i < MAXIMUM_PEERS && s.entries[i].used && s.entries[i].installed
    requires e == s.entries[i].(cached := e.cached) && (e.cached ==> !s.entries[i].retiring)
    ensures AtWork(s.Put(i, e))
  {
    InstalledWith(s.entries, i, e, -1, -1);
    TrafficKept(s, i, e, -1, -1);
    assert s.entries[i].address in Installed(s.entries);
  }

  lemma CacheInstalledKeeps(s: State, i: nat, a: Address, previous: Entry)
    requires AtWork(s) && i < MAXIMUM_PEERS
    requires s.entries[i].used && s.entries[i].address == a && s.entries[i].installed && !s.entries[i].retiring
    requires previous == s.entries[i] || (previous == EMPTY && !s.entries[i].traffic)
    ensures At(CacheInstalled(s, i, a, previous))
  {
    if !s.active || s.shutdownPending {
      EndTransactionKeeps(s, NotReady);
    } else {
      FlagKept(s, i, s.entries[i].(cached := true));
    }
  }

  lemma CacheRemovedKeeps(s: State, a: Address)
    requires AtWork(s)
    ensures At(CacheRemoved(s, a))
  {
    if !s.active || s.shutdownPending {
      EndTransactionKeeps(s, NotReady);
    }
  }

  lemma CacheAddKeeps(s: State, a: Address, hardware: nat)
    requires AtWork(s) && Unicast(a)
    ensures At(CacheAdd(s, a, hardware))
  {
    match Reserve(s, a, hardware)
    case Refused(result) => EndTransactionKeeps(s, result);
    case Held(i) => CacheInstalledKeeps(s, i, a, s.entries[i]);
    case Fresh(i) => StartAddKeeps(s, i, a);
  }

  lemma CacheRemoveKeeps(s: State, a: Address)
    requires AtWork(s)
    ensures At(CacheRemove(s, a))
  {
    var i := Find(s.entries, a);
    if i.None? {
      CacheRemovedKeeps(s, a);
    } else {
      var t := s.Put(i.value, s.entries[i.value].(cached := false));
      FlagKept(s, i.value, t.entries[i.value]);
      if t.entries[i.value].traffic {
        CacheRemovedKeeps(t, a);
      } else {
        StartRemoveKeeps(t, i.value);
      }
    }
  }

  lemma UndoCacheKeeps(s: State, i: nat, a: Address, previous: Entry)
    requires Offered(s, i, a, previous)
    ensures At(UndoCache(s, i, previous))
  {
    var t := s.Put(i, s.entries[i].(cached := previous.cached));
    FlagKept(s, i, t.entries[i]);
    if !previous.installed && !t.entries[i].traffic {
      StartRemoveKeeps(t, i);
    } else {
      EndTransactionKeeps(t, NotReady);
    }
  }

  lemma TrafficMovedKeeps(s: State)
    requires AtWork(s)
    ensures At(TrafficMoved(s))
  {
    EndTransactionKeeps(s, if s.active && !s.shutdownPending then Success else NotReady);
  }

  /** The traffic reference may move to an entry that is installed and not retiring. */
  predicate Choosable(s: State, next: Option<nat>, a: Address) {
    match next
    case None => a == ZERO_ADDRESS
    case Some(i) => i < |s.entries| && s.entries[i].used && s.entries[i].address == a
                    && s.entries[i].installed && !s.entries[i].retiring
  }

  function Chosen(es: seq<Entry>, next: Option<nat>): seq<Entry>
    requires next.Some? ==> next.value < |es|
  {
    if next.None? then es else es[next.value := es[next.value].(traffic := true)]
  }

  lemma TrafficChosenKeeps(s: State, next: Option<nat>, a: Address)
    requires AtWork(s) && Choosable(s, next, a)
    ensures At(TrafficChosen(s.(entries := Chosen(s.entries, next)), next, a))
  {
    var was := Find(s.entries, s.trafficPeer);
    var u := s.(entries := Chosen(s.entries, next));
    ChosenFind(s, next);
    if was.None? || was == next {
      MovedAtWork(s, next, a, u.(trafficPeer := a));
      TrafficMovedKeeps(u.(trafficPeer := a));
    } else {
      ReleaseKeeps(s, next, a, was.value);
    }
  }

  lemma ReleaseKeeps(s: State, next: Option<nat>, a: Address, k: nat)
    requires AtWork(s) && Choosable(s, next, a)
    requires Find(s.entries, s.trafficPeer) == Some(k) && next != Some(k)
    requires Find(Chosen(s.entries, next), s.trafficPeer) == Some(k)
    ensures At(TrafficChosen(s.(entries := Chosen(s.entries, next)), next, a))
  {
    var u := s.(entries := Chosen(s.entries, next));
    var t := u.(trafficPeer := a).Put(k, u.entries[k].(traffic := false));
    ReleasedAtWork(s, next, a, k, t);
    if t.entries[k].cached {
      TrafficMovedKeeps(t);
    } else {
      StartRemoveKeeps(t, k);
    }
  }

  lemma ChosenFind(s: State, next: Option<nat>)
    requires AtWork(s) && (next.Some? ==> next.value < MAXIMUM_PEERS)
    ensures Find(Chosen(s.entries, next), s.trafficPeer) == Find(s.entries, s.trafficPeer)
  {
    SameAddressesSameFind(s.entries, Chosen(s.entries, next), s.trafficPeer, 0);
  }

  lemma {:induction false} SameAddressesSameFind(es: seq<Entry>, fs: seq<Entry>, a: Address, from: nat)
    requires |es| == |fs| && from <= |es|
    requires forall i :: 0 <= i < |es| ==> es[i].used == fs[i].used && es[i].address == fs[i].address
    ensures FindFrom(es, a, from) == FindFrom(fs, a, from)
    decreases |es| - from
  {
    if from < |es| {
      SameAddressesSameFind(es, fs, a, from + 1);
    }
  }

  lemma ChosenTable(s: State, next: Option<nat>, a: Address)
    requires AtWork(s) && Choosable(s, next, a)
    ensures Table(Chosen(s.entries, next), -1)
    ensures Installed(Chosen(s.entries, next)) == Installed(s.entries)
    ensures Vouched(s.log, Chosen(s.entries, next), -1)
  {
    if next.Some? {
      InstalledWith(s.entries, next.value, s.entries[next.value].(traffic := true), -1, -1);
      assert s.entries[next.value].address in Installed(s.entries);
    }
  }

  lemma MovedAtWork(s: State, next: Option<nat>, a: Address, t: State)
    requires AtWork(s) && Choosable(s, next, a) && t == s.(entries := Chosen(s.entries, next), trafficPeer := a)
    requires Find(s.entries, s.trafficPeer).None? || Find(s.entries, s.trafficPeer) == next
    ensures AtWork(t)
  {
    ChosenTable(s, next, a);
    if next.Some? {
      FindIs(t.entries, next.value, -1);
    }
  }

  lemma ReleasedAtWork(s: State, next: Option<nat>, a: Address, k: nat, t: State)
    requires AtWork(s) && Choosable(s, next, a)
    requires Find(s.entries, s.trafficPeer) == Some(k) && next != Some(k)
    requires t == s.(entries := Chosen(s.entries, next)[k := s.entries[k].(traffic := false)], trafficPeer := a)
    ensures AtWork(t)
  {
    ChosenTable(s, next, a);
    var es := Chosen(s.entries, next);
    InstalledWith(es, k, es[k].(traffic := false), -1, -1);
    assert Installed(t.entries) == Installed(es) + {es[k].address};
    assert es[k].installed ==> es[k].address in Installed(es);
    if next.Some? {
      FindIs(t.entries, next.value, -1);
    }
  }

  // -------------------------------------------------------------------------
  // Requests and answers
  // -------------------------------------------------------------------------

  lemma TrafficInstalledKeeps(s: State, i: nat, a: Address)
    requires AtWork(s) && Choosable(s, Some(i), a)
    ensures At(TrafficInstalled(s, i, a))
  {
    if !s.active || s.shutdownPending {
      EndTransactionKeeps(s, NotReady);
    } else {
      TrafficChosenKeeps(s, Some(i), a);
    }
  }

  lemma TrafficAddKeeps(s: State, a: Address, hardware: nat)
    requires AtWork(s) && Unicast(a)
    ensures At(TrafficAdd(s, a, hardware))
  {
    match Reserve(s, a, hardware)
    case Refused(result) => EndTransactionKeeps(s, result);
    case Held(i) => TrafficInstalledKeeps(s, i, a);
    case Fresh(i) => StartAddKeeps(s, i, a);
  }

  lemma BeginTrafficKeeps(s: State, d: Registration, q: Query)
    requires AtRest(s)
    ensures At(BeginTraffic(s, d, q))
  {
    if s.bound && s.active && d.wellFormed {
      var t := s.(busy := true);
      if !d.active {
        assert t.(entries := Chosen(t.entries, None)) == t;
        TrafficChosenKeeps(t, None, ZERO_ADDRESS);
      } else if Unicast(d.address) && !IsLocal(s, d.address, q.local) && Ready(s, q.capacity) {
        TrafficAddKeeps(t, d.address, q.capacity);
      }
    }
  }

  lemma BeginCacheKeeps(s: State, operation: nat, a: Address, q: Query)
    requires AtRest(s)
    ensures At(BeginCache(s, operation, a, q))
  {
    if s.bound && s.active && Unicast(a) {
      var t := s.(busy := true);
      CacheRemoveKeeps(t, a);
      CacheAddKeeps(t, a, q.capacity);
    }
  }

  lemma AskKeeps(s: State, a: Address, adding: int, clearing: int, failed: bool)
    requires Core(s, adding, clearing, failed) && (failed || clearing != -1 ==> s.closing)
    ensures Core(s.Log(Asked(a, Authorized(s, a))), adding, clearing, failed)
  {
    QuietEvent(s.log, Asked(a, Authorized(s, a)));
  }

  lemma BeginKeeps(s: State, r: Request)
    requires AtRest(s)
    ensures At(Begin(s, r))
  {
    match r
    case Bind(native, a, current, hardware) => BoundEvent(s.log);
    case Enable(value, hardware) =>
      if !value {
        ClearKeeps(s.(active := false), false, None);
      }
    case Revoke =>
    case Shutdown => ClearKeeps(s.(active := false), true, Some(Success));
    case Abandon => ForgottenRests(s.(active := false));
    case Cache(operation, a, q) => BeginCacheKeeps(s, operation, a, q);
    case Traffic(d, q) => BeginTrafficKeeps(s, d, q);
    case Ask(a) => AskKeeps(s, a, -1, -1, false);
  }

  lemma ResumeKeeps(p: Point, result: PeerResult)
    requires At(p) && !p.pc.Done?
    ensures At(Resume(p.state, p.pc, result))
  {
    if p.pc.Clearing? {
      ClearingKeeps(p, result);
    } else if p.pc.Posting? {
      PostedKeeps(p, result);
    } else {
      AnsweredKeeps(p, result);
    }
  }

  lemma AnsweredKeeps(p: Point, result: PeerResult)
    requires At(p) && !p.pc.Done? && !p.pc.Posting? && !p.pc.Clearing?
    ensures At(Resume(p.state, p.pc, result))
  {
    match p.pc
    case AddingForCache(i, a) => CacheAddedKeeps(p.state, i, a, result);
    case AddingForTraffic(i, a) => TrafficAddedKeeps(p.state, i, a, result);
    case RemovingForCache(i, a) => CacheClearedKeeps(p.state, i, a, result);
    case RemovingForTraffic(i) => TrafficClearedKeeps(p.state, i, result);
    case Unwinding(i) =>
      FinishRemoveKeeps(p.state, i, result);
      EndTransactionKeeps(FinishRemove(p.state, i, result), NotReady);
  }

  lemma ClearingKeeps(p: Point, result: PeerResult)
    requires At(p) && p.pc.Clearing?
    ensures At(Resume(p.state, p.pc, result))
  {
    var failure := if result == Ok then p.pc.failure else Status(result);
    FinishClearKeeps(p.state, p.pc.index, p.pc.failure, result);
    ClearFromKeeps(FinishClear(p.state, p.pc.index, result), p.pc.index + 1, p.pc.unbind, failure, p.pc.reply);
  }

  lemma CacheAddedKeeps(s: State, i: nat, a: Address, result: PeerResult)
    requires Adding(s, i, a)
    ensures At(CacheAdded(FinishAdd(s, i, a, result), i, a, result))
  {
    FinishAddKeeps(s, i, a, result);
    var t := FinishAdd(s, i, a, result);
    if result == Ok {
      CacheInstalledKeeps(t, i, a, EMPTY);
    } else {
      EndTransactionKeeps(t, t.lastError);
    }
  }

  lemma TrafficAddedKeeps(s: State, i: nat, a: Address, result: PeerResult)
    requires Adding(s, i, a)
    ensures At(TrafficAdded(FinishAdd(s, i, a, result), i, a, result))
  {
    FinishAddKeeps(s, i, a, result);
    var t := FinishAdd(s, i, a, result);
    if result == Ok {
      TrafficInstalledKeeps(t, i, a);
    } else {
      EndTransactionKeeps(t, t.lastError);
    }
  }

  lemma CacheClearedKeeps(s: State, i: nat, a: Address, result: PeerResult)
    requires Removing(s, i)
    ensures At(CacheCleared(FinishRemove(s, i, result), i, a, result))
  {
    FinishRemoveKeeps(s, i, result);
    CacheRemovedKeeps(FinishRemove(s, i, result), a);
    EndTransactionKeeps(FinishRemove(s, i, result), FinishRemove(s, i, result).lastError);
  }

  lemma TrafficClearedKeeps(s: State, i: nat, result: PeerResult)
    requires Removing(s, i)
    ensures At(TrafficCleared(FinishRemove(s, i, result), result))
  {
    FinishRemoveKeeps(s, i, result);
    TrafficMovedKeeps(FinishRemove(s, i, result));
    EndTransactionKeeps(FinishRemove(s, i, result), FinishRemove(s, i, result).lastError);
  }

  lemma PostedKeeps(p: Point, result: PeerResult)
    requires At(p) && p.pc.Posting?
    ensures At(Resume(p.state, p.pc, result))
  {
    var t := p.state.Log(Completed(p.pc.address, p.pc.add, result == Ok));
    QuietEvent(p.state.log, Completed(p.pc.address, p.pc.add, result == Ok));
    assert AtWork(t);
    if result == Ok {
      EndTransactionKeeps(t, Success);
    } else if p.pc.add {
      UndoCacheKeeps(t, p.pc.index, p.pc.address, p.pc.previous);
    } else {
      EndTransactionKeeps(t, NotReady);
    }
  }

  // -------------------------------------------------------------------------
  // Re-entry
  // -------------------------------------------------------------------------

  /** Requests that withdraw authorization. */
  predicate Withdraws(r: Request) {
    r.Revoke? || r.Shutdown? || r.Abandon? || (r.Enable? && !r.value)
  }

  predicate Disables(s: State, r: Request) {
    r.Enable? && !r.value && s.busy
  }

  /** What a request made while a call-out is open leaves in the log. */
  function Note(s: State, r: Request): seq<Event> {
    if r.Ask? then [Asked(r.address, Authorized(s, r.address))]
    else if r.Shutdown? then [Deferred(Close)]
    else if r.Abandon? then [Deferred(Forget)]
    else if Disables(s, r) then [Deferred(Disable)]
    else []
  }

  /** The effect of a request made while a call-out is open. */
  function Mark(s: State, r: Request): State {
    s.(active := s.active && !Withdraws(r),
       shutdownPending := s.shutdownPending || r.Shutdown?,
       disablePending := s.disablePending || Disables(s, r),
       abandonPending := s.abandonPending || r.Abandon?,
       log := s.log + Note(s, r))
  }

  /** A request made while a call-out is open returns at once. It withdraws authorization,
      leaves a teardown to be carried out later or observes; nothing else changes. */
  lemma ReentryOnlyMarks(s: State, r: Request)
    requires |s.entries| == MAXIMUM_PEERS && !s.Resting()
    ensures Begin(s, r).pc.Done? && Begin(s, r).state == Mark(s, r)
  {
    if r.Enable? {
      EnableOnlyMarks(s, r);
    } else if r.Cache? || r.Traffic? || r.Bind? || r.Revoke? {
      NoNote(s, r);
    }
  }

  lemma NoNote(s: State, r: Request)
    requires r.Cache? || r.Traffic? || r.Bind? || r.Revoke? || (r.Enable? && (r.value || !s.busy))
    ensures Mark(s, r) == s.(active := s.active && !Withdraws(r))
  {
    assert s.log + [] == s.log;
  }

  lemma EnableOnlyMarks(s: State, r: Request)
    requires |s.entries| == MAXIMUM_PEERS && !s.Resting() && r.Enable?
    ensures Begin(s, r).pc.Done? && Begin(s, r).state == Mark(s, r)
  {
    if r.value {
      NoNote(s, r);
    } else {
      DisableOnlyMarks(s, r);
    }
  }

  lemma DisableOnlyMarks(s: State, r: Request)
    requires |s.entries| == MAXIMUM_PEERS && !s.Resting() && r.Enable? && !r.value
    ensures Begin(s, r).pc.Done? && Begin(s, r).state == Mark(s, r)
  {
    if !s.busy {
      NoNote(s, r);
    }
  }

  lemma ReentryKeeps(p: Point, r: Request)
    requires At(p) && !p.pc.Done?
    ensures At(Point(Begin(p.state, r).state, p.pc))
  {
    ReentryOnlyMarks(p.state, r);
    if r.Ask? {
      AskedAt(p, r.address);
    } else {
      MarkedAt(p, r);
    }
  }

  lemma MarkedAt(p: Point, r: Request)
    requires At(p) && !p.pc.Done? && !r.Ask?
    ensures At(Point(Mark(p.state, r), p.pc))
  {
    var adding := if p.pc.AddingForCache? || p.pc.AddingForTraffic? then p.pc.index else -1;
    var clearing := if p.pc.Clearing? then p.pc.index else -1;
    var failed := p.pc.Clearing? && p.pc.failure != Success;
    MarkKeepsCore(p.state, r, adding, clearing, failed);
  }

  lemma MarkKeepsCore(s: State, r: Request, adding: int, clearing: int, failed: bool)
    requires Core(s, adding, clearing, failed) && !r.Ask? && s.bound
    ensures Core(Mark(s, r), adding, clearing, failed)
  {
    if Note(s, r) != [] {
      QuietEvent(s.log, Note(s, r)[0]);
    } else {
      assert s.log + Note(s, r) == s.log;
    }
  }

  lemma AskedAt(p: Point, a: Address)
    requires At(p) && !p.pc.Done?
    ensures At(Point(p.state.Log(Asked(a, Authorized(p.state, a))), p.pc))
  {
    if p.pc.AddingForCache? || p.pc.AddingForTraffic? {
      AskKeeps(p.state, a, p.pc.index, -1, false);
    } else if p.pc.Clearing? {
      AskKeeps(p.state, a, -1, p.pc.index, p.pc.failure != Success);
    } else {
      AskKeeps(p.state, a, -1, -1, false);
    }
  }

  // -------------------------------------------------------------------------
  // Runs
  // -------------------------------------------------------------------------

  lemma AtInTable(p: Point)
    requires At(p)
    ensures |p.state.entries| == MAXIMUM_PEERS && InTable(p.pc)
  {
  }

  lemma {:induction false} CallOutKeeps(p: Point, requests: seq<Request>)
    requires At(p) && !p.pc.Done?
    ensures |p.state.entries| == MAXIMUM_PEERS && At(Point(CallOut(p.state, requests), p.pc))
    decreases |requests|
  {
    AtInTable(p);
    if requests != [] {
      ReentryKeeps(p, requests[0]);
      CallOutKeeps(Point(Begin(p.state, requests[0]).state, p.pc), requests[1..]);
    }
  }

  lemma {:induction false} DriveKeeps(p: Point, answers: seq<Answer>)
    requires At(p)
    ensures |p.state.entries| == MAXIMUM_PEERS && InTable(p.pc) && AtRest(Drive(p, answers).state)
    decreases Rank(p.pc)
  {
    AtInTable(p);
    if !p.pc.Done? {
      var answer := First(answers);
      CallOutKeeps(p, answer.requests);
      var s := CallOut(p.state, answer.requests);
      ResumeAdvances(s, p.pc, answer.result);
      ResumeKeeps(Point(s, p.pc), answer.result);
      DriveKeeps(Resume(s, p.pc, answer.result), Rest(answers));
    }
  }

  lemma {:induction false} RunKeeps(s: State, visits: seq<Visit>)
    requires AtRest(s)
    ensures AtRest(Run(s, visits))
    decreases |visits|
  {
    if visits != [] {
      BeginKeeps(s, visits[0].request);
      DriveKeeps(Begin(s, visits[0].request), visits[0].answers);
      RunKeeps(Drive(Begin(s, visits[0].request), visits[0].answers).state, visits[1..]);
    }
  }

  lemma StartRests()
    ensures AtRest(START)
  {
    EmptyTable();
    assert START.entries == Empties(MAXIMUM_PEERS);
  }
}
