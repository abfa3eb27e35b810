/** The promises of the peer owner, for every run. */
module PeersTheorems {
  import opened Common
  import opened Peers
  import opened PeersProof

  /** In every run, whatever the hardware answers and whatever is asked during call-outs:
      the hardware holds exactly the peers in the table and the peers handed off to it,
      every peer that was ever reported as authorized was by then successfully added with no
      removal begun, and no add was issued while faulted. */
  lemma HardwareIsAccountedFor(visits: seq<Visit>)
    ensures var t := Run(START, visits);
      && Holds(t.log) == Installed(t.entries) + Orphans(t.log)
      && (forall i :: 0 <= i < MAXIMUM_PEERS && t.entries[i].used ==> t.entries[i].address in Holds(t.log))
      && (forall a :: Authorized(t, a) ==> Latest(t.log, a) == Some(Ended(a, true, Ok)) && !Faulted(t.log))
      && (forall k :: 0 <= k < |t.log| ==> Lawful(t.log[..k], t.log[k]))
  {
    StartRests();
    RunKeeps(START, visits);
    var t := Run(START, visits);
    LawfulEverywhere(t.log);
    forall i | 0 <= i < MAXIMUM_PEERS && t.entries[i].used ensures t.entries[i].address in Holds(t.log) {
      assert t.entries[i].address in Installed(t.entries);
    }
  }

  lemma {:induction false} LawfulEverywhere(log: seq<Event>)
    requires LawfulLog(log)
    ensures forall k :: 0 <= k < |log| ==> Lawful(log[..k], log[k])
  {
    if log != [] {
      var front := log[..|log| - 1];
      LawfulEverywhere(front);
      forall k | 0 <= k < |log| ensures Lawful(log[..k], log[k]) {
        if k < |front| {
          assert log[..k] == front[..k] && log[k] == front[k];
        }
      }
    }
  }

  /** At rest no teardown is owed, table addresses are distinct, the traffic flag marks
      exactly the peer that the traffic reference names, and an unbound owner holds nothing. */
  lemma TableAtRest(visits: seq<Visit>)
    ensures var t := Run(START, visits);
      && t.Resting() && !Pending(t)
      && (forall i, j :: 0 <= i < j < MAXIMUM_PEERS && t.entries[i].used && t.entries[j].used ==>
            t.entries[i].address != t.entries[j].address)
      && (forall i :: 0 <= i < MAXIMUM_PEERS ==>
            (t.entries[i].traffic <==> t.entries[i].used && t.entries[i].address == t.trafficPeer))
      && (t.trafficPeer != ZERO_ADDRESS ==> Find(t.entries, t.trafficPeer).Some?)
      && (!t.bound ==> t.entries == Empties(MAXIMUM_PEERS) && t.trafficPeer == ZERO_ADDRESS && !t.active)
  {
    StartRests();
    RunKeeps(START, visits);
    var t := Run(START, visits);
    forall i | 0 <= i < MAXIMUM_PEERS && t.entries[i].used && t.entries[i].address == t.trafficPeer
      ensures t.entries[i].traffic
    {
      FindIs(t.entries, i, -1);
    }
  }

  // -------------------------------------------------------------------------
  // Deferred teardowns
  // -------------------------------------------------------------------------

  /** The log says, from position `n` on, that a teardown was put off. */
  predicate Told(log: seq<Event>, n: nat, what: Teardown) {
    n < |log| && (log[|log| - 1] == Deferred(what) || Told(log[..|log| - 1], n, what))
  }

  lemma {:induction false} ToldMeans(log: seq<Event>, n: nat, what: Teardown)
    ensures Told(log, n, what) <==> exists k :: n <= k < |log| && log[k] == Deferred(what)
  {
    if n < |log| {
      var front := log[..|log| - 1];
      ToldMeans(front, n, what);
      forall k | n <= k < |front| ensures front[k] == log[k] {
      }
      if Told(log, n, what) && log[|log| - 1] != Deferred(what) {
        var k :| n <= k < |front| && front[k] == Deferred(what);
        assert log[k] == Deferred(what);
      }
    }
  }

  lemma ToldAfter(log: seq<Event>, n: nat, e: Event, what: Teardown)
    requires n <= |log|
    ensures Told(log + [e], n, what) == (Told(log, n, what) || e == Deferred(what))
  {
    assert (log + [e])[..|log|] == log;
  }

  /** Every teardown asked for since position `n` of the log has been carried out. */
  predicate Settled(s: State, n: nat) {
    && (Told(s.log, n, Close) || Told(s.log, n, Forget) ==> !s.bound)
    && (Told(s.log, n, Close) || Told(s.log, n, Forget) || Told(s.log, n, Disable) ==>
          s.entries == Empties(MAXIMUM_PEERS) && s.trafficPeer == ZERO_ADDRESS && !s.active)
  }

  /** Every teardown asked for since position `n` is marked as pending. */
  predicate Owed(s: State, n: nat) {
    && n <= |s.log|
    && (Told(s.log, n, Close) ==> s.shutdownPending)
    && (Told(s.log, n, Forget) ==> s.abandonPending)
    && (Told(s.log, n, Disable) ==> s.disablePending)
  }

  predicate Honoured(p: Point, n: nat) {
    match p.pc.Done?
    case true => n <= |p.state.log| && Settled(p.state, n)
    case false => Owed(p.state, n)
  }

  /** `t` follows `s` by one event that is not a deferral, with the same pending flags. */
  predicate OneEvent(s: State, t: State) {
    && |t.log| == |s.log| + 1 && t.log == s.log + [t.log[|s.log|]] && !t.log[|s.log|].Deferred?
    && t.shutdownPending == s.shutdownPending && t.abandonPending == s.abandonPending
    && t.disablePending == s.disablePending
  }

  lemma OneEventOwes(s: State, t: State, n: nat)
    requires Owed(s, n) && OneEvent(s, t)
    ensures Owed(t, n)
  {
    var e := t.log[|s.log|];
    ToldAfter(s.log, n, e, Close);
    ToldAfter(s.log, n, e, Forget);
    ToldAfter(s.log, n, e, Disable);
  }

  lemma MarkOwes(s: State, r: Request, n: nat)
    requires Owed(s, n)
    ensures Owed(Mark(s, r), n)
  {
    if Note(s, r) == [] {
      SilentMarkOwes(s, r, n);
    } else {
      NotedMarkOwes(s, r, n);
    }
  }

  lemma SilentMarkOwes(s: State, r: Request, n: nat)
    requires Owed(s, n) && Note(s, r) == []
    ensures Owed(Mark(s, r), n)
  {
    assert s.log + [] == s.log;
  }

  lemma NoteKind(s: State, r: Request)
    requires Note(s, r) != []
    ensures Note(s, r)[0] == Deferred(Close) ==> r.Shutdown?
    ensures Note(s, r)[0] == Deferred(Forget) ==> r.Abandon?
    ensures Note(s, r)[0] == Deferred(Disable) ==> Disables(s, r)
    ensures |Note(s, r)| == 1
  {
  }

  lemma NotedMarkOwes(s: State, r: Request, n: nat)
    requires Owed(s, n) && Note(s, r) != []
    ensures Owed(Mark(s, r), n)
  {
    NoteKind(s, r);
    var note, t := Note(s, r), Mark(s, r);
    NoteTold(s.log, n, note, Close);
    NoteTold(s.log, n, note, Forget);
    NoteTold(s.log, n, note, Disable);
    assert t.log == s.log + note && t.shutdownPending == (s.shutdownPending || r.Shutdown?)
           && t.abandonPending == (s.abandonPending || r.Abandon?)
           && t.disablePending == (s.disablePending || Disables(s, r));
  }

  lemma NoteTold(log: seq<Event>, n: nat, note: seq<Event>, what: Teardown)
    requires n <= |log| && |note| == 1
    ensures Told(log + note, n, what) == (Told(log, n, what) || note[0] == Deferred(what))
  {
    ToldAfter(log, n, note[0], what);
    assert note == [note[0]];
  }

  lemma {:induction false} CallOutOwes(s: State, requests: seq<Request>, n: nat)
    requires |s.entries| == MAXIMUM_PEERS && Owed(s, n) && !s.Resting()
    ensures Owed(CallOut(s, requests), n)
    decreases |requests|
  {
    if requests != [] {
      ReentryOnlyMarks(s, requests[0]);
      MarkOwes(s, requests[0], n);
      CallOutOwes(Begin(s, requests[0]).state, requests[1..], n);
    }
  }

  predicate Sweeping(s: State, i: nat) {
    && |s.entries| == MAXIMUM_PEERS && i <= MAXIMUM_PEERS && s.closing && !s.active
    && forall k :: 0 <= k < i ==> s.entries[k] == EMPTY
  }

  lemma SweptHonours(s: State, i: nat, unbind: bool, failure: IOReturn, reply: Option<IOReturn>, n: nat)
    requires Sweeping(s, i) && Owed(s, n) && NextInstalled(s.entries, i) == MAXIMUM_PEERS
    ensures Honoured(ClearFrom(s, i, unbind, failure, reply), n)
  {
    assert Swept(s.entries, i, MAXIMUM_PEERS) == Empties(MAXIMUM_PEERS);
  }

  lemma RemovalHonours(s: State, i: nat, unbind: bool, failure: IOReturn, reply: Option<IOReturn>, n: nat)
    requires Sweeping(s, i) && Owed(s, n) && NextInstalled(s.entries, i) < MAXIMUM_PEERS
    ensures Honoured(ClearFrom(s, i, unbind, failure, reply), n)
  {
    var j := NextInstalled(s.entries, i);
    var t := s.(entries := Swept(s.entries, i, j));
    OneEventOwes(t, t.Log(Began(t.entries[j].address, false)), n);
  }

  lemma ClearFromHonours(s: State, i: nat, unbind: bool, failure: IOReturn, reply: Option<IOReturn>, n: nat)
    requires Sweeping(s, i) && Owed(s, n)
    ensures Honoured(ClearFrom(s, i, unbind, failure, reply), n)
  {
    if NextInstalled(s.entries, i) == MAXIMUM_PEERS {
      SweptHonours(s, i, unbind, failure, reply, n);
    } else {
      RemovalHonours(s, i, unbind, failure, reply, n);
    }
  }

  lemma ForgottenSettles(s: State, n: nat)
    requires n <= |s.log| && !s.active
    ensures Settled(Forgotten(s), n)
  {
  }

  predicate Working(s: State, n: nat) {
    |s.entries| == MAXIMUM_PEERS && s.busy && !s.closing && (Pending(s) ==> !s.active) && Owed(s, n)
  }

  lemma TransactionClearHonours(s: State, unbind: bool, result: IOReturn, n: nat)
    requires |s.entries| == MAXIMUM_PEERS && !s.busy && !s.closing && Owed(s, n)
    ensures Honoured(Clear(s, unbind, Some(result)), n)
  {
    ClearFromHonours(s.(closing := true, active := false), 0, unbind, Success, Some(result), n);
  }

  lemma EndTransactionHonours(s: State, result: IOReturn, n: nat)
    requires Working(s, n)
    ensures Honoured(EndTransaction(s, result), n)
  {
    var t := s.(busy := false);
    if t.abandonPending {
      ForgottenSettles(t, n);
    } else if t.shutdownPending {
      TransactionClearHonours(t, true, result, n);
    } else if t.disablePending {
      TransactionClearHonours(t, false, result, n);
    }
  }

  lemma StartAddWorks(s: State, i: nat, a: Address, n: nat)
    requires Working(s, n) && i < MAXIMUM_PEERS
    ensures Working(StartAdd(s, i, a), n)
  {
    OneEventOwes(s, StartAdd(s, i, a), n);
  }

  lemma StartRemoveWorks(s: State, i: nat, n: nat)
    requires Working(s, n) && i < MAXIMUM_PEERS
    ensures Working(StartRemove(s, i), n)
  {
    OneEventOwes(s, StartRemove(s, i), n);
  }

  lemma FinishAddWorks(s: State, i: nat, a: Address, result: PeerResult, n: nat)
    requires Working(s, n) && i < MAXIMUM_PEERS
    ensures Working(FinishAdd(s, i, a, result), n)
  {
    OneEventOwes(s, FinishAdd(s, i, a, result), n);
  }

  lemma FinishRemoveWorks(s: State, i: nat, result: PeerResult, n: nat)
    requires Working(s, n) && i < MAXIMUM_PEERS
    ensures Working(FinishRemove(s, i, result), n)
  {
    OneEventOwes(s, FinishRemove(s, i, result), n);
  }

  lemma CacheInstalledHonours(s: State, i: nat, a: Address, previous: Entry, n: nat)
    requires Working(s, n) && i < MAXIMUM_PEERS
    ensures Honoured(CacheInstalled(s, i, a, previous), n)
  {
    if !s.active || s.shutdownPending {
      EndTransactionHonours(s, NotReady, n);
    }
  }

  lemma CacheRemovedHonours(s: State, a: Address, n: nat)
    requires Working(s, n)
    ensures Honoured(CacheRemoved(s, a), n)
  {
    if !s.active || s.shutdownPending {
      EndTransactionHonours(s, NotReady, n);
    }
  }

  lemma TrafficMovedHonours(s: State, n: nat)
    requires Working(s, n)
    ensures Honoured(TrafficMoved(s), n)
  {
    EndTransactionHonours(s, if s.active && !s.shutdownPending then Success else NotReady, n);
  }

  lemma TrafficChosenHonours(s: State, next: Option<nat>, a: Address, n: nat)
    requires Working(s, n)
    ensures Honoured(TrafficChosen(s, next, a), n)
  {
    var was := Find(s.entries, s.trafficPeer);
    var t := s.(trafficPeer := a);
    if was.None? || was == next {
      TrafficMovedHonours(t, n);
    } else {
      TrafficReleasedHonours(s, next, a, was.value, n);
    }
  }

  lemma TrafficReleasedHonours(s: State, next: Option<nat>, a: Address, k: nat, n: nat)
    requires Working(s, n) && Find(s.entries, s.trafficPeer) == Some(k) && next != Some(k)
    ensures Honoured(TrafficChosen(s, next, a), n)
  {
    var u := s.(trafficPeer := a).Put(k, s.entries[k].(traffic := false));
    if u.entries[k].cached {
      TrafficMovedHonours(u, n);
    } else {
      StartRemoveWorks(u, k, n);
    }
  }

  lemma TrafficInstalledHonours(s: State, i: nat, a: Address, n: nat)
    requires Working(s, n) && i < MAXIMUM_PEERS
    ensures Honoured(TrafficInstalled(s, i, a), n)
  {
    if !s.active || s.shutdownPending {
      EndTransactionHonours(s, NotReady, n);
    } else {
      TrafficChosenHonours(s.Put(i, s.entries[i].(traffic := true)), Some(i), a, n);
    }
  }

  lemma PostedHonours(s: State, pc: Pc, result: PeerResult, n: nat)
    requires Working(s, n) && pc.Posting? && pc.index < MAXIMUM_PEERS
    ensures Honoured(Resume(s, pc, result), n)
  {
    var t := s.Log(Completed(pc.address, pc.add, result == Ok));
    OneEventOwes(s, t, n);
    if result == Ok {
      EndTransactionHonours(t, Success, n);
    } else if pc.add {
      UndoHonours(t, pc.index, pc.previous, n);
    } else {
      EndTransactionHonours(t, NotReady, n);
    }
  }

  lemma UndoHonours(s: State, i: nat, previous: Entry, n: nat)
    requires Working(s, n) && i < MAXIMUM_PEERS
    ensures Honoured(UndoCache(s, i, previous), n)
  {
    var t := s.Put(i, s.entries[i].(cached := previous.cached));
    if !previous.installed && !t.entries[i].traffic {
      StartRemoveWorks(t, i, n);
    } else {
      EndTransactionHonours(t, NotReady, n);
    }
  }

  lemma AddedHonours(s: State, pc: Pc, result: PeerResult, n: nat)
    requires Working(s, n) && (pc.AddingForCache? || pc.AddingForTraffic?) && pc.index < MAXIMUM_PEERS
    ensures Honoured(Resume(s, pc, result), n)
  {
    FinishAddWorks(s, pc.index, pc.address, result, n);
    var t := FinishAdd(s, pc.index, pc.address, result);
    if result != Ok {
      EndTransactionHonours(t, t.lastError, n);
    } else if pc.AddingForCache? {
      CacheInstalledHonours(t, pc.index, pc.address, EMPTY, n);
    } else {
      TrafficInstalledHonours(t, pc.index, pc.address, n);
    }
  }

  lemma RemovedHonours(s: State, pc: Pc, result: PeerResult, n: nat)
    requires Working(s, n) && (pc.RemovingForCache? || pc.RemovingForTraffic? || pc.Unwinding?)
      && pc.index < MAXIMUM_PEERS
    ensures Honoured(Resume(s, pc, result), n)
  {
    FinishRemoveWorks(s, pc.index, result, n);
    var t := FinishRemove(s, pc.index, result);
    if pc.Unwinding? {
      EndTransactionHonours(t, NotReady, n);
    } else if result != Ok {
      EndTransactionHonours(t, t.lastError, n);
    } else if pc.RemovingForCache? {
      CacheRemovedHonours(t, pc.address, n);
    } else {
      TrafficMovedHonours(t, n);
    }
  }

  lemma SweepHonours(p: Point, result: PeerResult, n: nat)
    requires At(p) && p.pc.Clearing? && Owed(p.state, n)
    ensures Honoured(Resume(p.state, p.pc, result), n)
  {
    var failure := if result == Ok then p.pc.failure else Status(result);
    var t := FinishClear(p.state, p.pc.index, result);
    FinishClearOwes(p.state, p.pc.index, result, n);
    FinishClearSweeps(p, result);
    ClearFromHonours(t, p.pc.index + 1, p.pc.unbind, failure, p.pc.reply, n);
    SweepResumes(p.state, p.pc, result, t, failure);
  }

  lemma SweepResumes(s: State, pc: Pc, result: PeerResult, t: State, failure: IOReturn)
    requires |s.entries| == MAXIMUM_PEERS && pc.Clearing? && pc.index < MAXIMUM_PEERS
    requires t == FinishClear(s, pc.index, result) && failure == if result == Ok then pc.failure else Status(result)
    ensures |t.entries| == MAXIMUM_PEERS
    ensures Resume(s, pc, result) == ClearFrom(t, pc.index + 1, pc.unbind, failure, pc.reply)
  {
  }

  lemma FinishClearSweeps(p: Point, result: PeerResult)
    requires At(p) && p.pc.Clearing?
    ensures Sweeping(FinishClear(p.state, p.pc.index, result), p.pc.index + 1)
  {
  }

  lemma FinishClearOwes(s: State, i: nat, result: PeerResult, n: nat)
    requires i < |s.entries| && Owed(s, n)
    ensures Owed(FinishClear(s, i, result), n)
  {
    var t := s.Put(i, EMPTY).Log(Ended(s.entries[i].address, false, result));
    OneEventOwes(s, t, n);
    OneEventOwes(t, t.Log(HandedOff({s.entries[i].address})), n);
  }

  lemma ResumeHonours(p: Point, result: PeerResult, n: nat)
    requires At(p) && !p.pc.Done? && Owed(p.state, n)
    ensures Honoured(Resume(p.state, p.pc, result), n)
  {
    if p.pc.Clearing? {
      SweepHonours(p, result, n);
    } else if p.pc.Posting? {
      PostedHonours(p.state, p.pc, result, n);
    } else if p.pc.AddingForCache? || p.pc.AddingForTraffic? {
      AddedHonours(p.state, p.pc, result, n);
    } else {
      RemovedHonours(p.state, p.pc, result, n);
    }
  }

  lemma {:induction false} DriveHonours(p: Point, answers: seq<Answer>, n: nat)
    requires At(p) && Honoured(p, n)
    ensures |p.state.entries| == MAXIMUM_PEERS && InTable(p.pc) && Settled(Drive(p, answers).state, n)
    decreases Rank(p.pc)
  {
    AtInTable(p);
    if !p.pc.Done? {
      var answer := First(answers);
      var s := CallOut(p.state, answer.requests);
      CallOutKeeps(p, answer.requests);
      CallOutOwes(p.state, answer.requests, n);
      ResumeAdvances(s, p.pc, answer.result);
      ResumeKeeps(Point(s, p.pc), answer.result);
      ResumeHonours(Point(s, p.pc), answer.result, n);
      DriveHonours(Resume(s, p.pc, answer.result), Rest(answers), n);
    }
  }

  lemma NothingTold(s: State)
    ensures !Told(s.log, |s.log|, Close) && !Told(s.log, |s.log|, Forget) && !Told(s.log, |s.log|, Disable)
    ensures Owed(s, |s.log|) && Settled(s, |s.log|)
  {
  }

  lemma BeginCacheHonours(s: State, operation: nat, a: Address, q: Query)
    requires AtRest(s)
    ensures Honoured(BeginCache(s, operation, a, q), |s.log|)
  {
    NothingTold(s);
    var t := s.(busy := true);
    CacheAddHonours(t, a, q.capacity, |s.log|);
    CacheRemoveHonours(t, a, |s.log|);
  }

  lemma CacheAddHonours(s: State, a: Address, hardware: nat, n: nat)
    requires Working(s, n)
    ensures Honoured(CacheAdd(s, a, hardware), n)
  {
    match Reserve(s, a, hardware)
    case Refused(result) => EndTransactionHonours(s, result, n);
    case Held(i) => CacheInstalledHonours(s, i, a, s.entries[i], n);
    case Fresh(i) => StartAddWorks(s, i, a, n);
  }

  lemma CacheRemoveHonours(s: State, a: Address, n: nat)
    requires Working(s, n)
    ensures Honoured(CacheRemove(s, a), n)
  {
    var i := Find(s.entries, a);
    if i.None? {
      CacheRemovedHonours(s, a, n);
    } else {
      var t := s.Put(i.value, s.entries[i.value].(cached := false));
      CacheRemovedHonours(t, a, n);
      StartRemoveWorks(t, i.value, n);
    }
  }

  lemma BeginTrafficHonours(s: State, d: Registration, q: Query)
    requires AtRest(s)
    ensures Honoured(BeginTraffic(s, d, q), |s.log|)
  {
    NothingTold(s);
    var t := s.(busy := true);
    TrafficChosenHonours(t, None, ZERO_ADDRESS, |s.log|);
    TrafficAddHonours(t, d.address, q.capacity, |s.log|);
  }

  lemma TrafficAddHonours(s: State, a: Address, hardware: nat, n: nat)
    requires Working(s, n)
    ensures Honoured(TrafficAdd(s, a, hardware), n)
  {
    match Reserve(s, a, hardware)
    case Refused(result) => EndTransactionHonours(s, result, n);
    case Held(i) => TrafficInstalledHonours(s, i, a, n);
    case Fresh(i) => StartAddWorks(s, i, a, n);
  }

  lemma PlainRequestHonours(s: State, r: Request)
    requires AtRest(s) && !r.Cache? && !r.Traffic?
    ensures Honoured(Begin(s, r), |s.log|)
  {
    NothingTold(s);
    var t := s.(active := false);
    match r
    case Bind(native, a, current, hardware) => OneEventOwes(s, s.Log(Bound), |s.log|);
    case Enable(value, hardware) => ClearFromHonours(t.(closing := true), 0, false, Success, None, |s.log|);
    case Revoke =>
    case Shutdown => TransactionClearHonours(t, true, Success, |s.log|);
    case Abandon => ForgottenSettles(t, |s.log|);
    case Ask(a) => OneEventOwes(s, s.Log(Asked(a, Authorized(s, a))), |s.log|);
  }

  lemma BeginHonours(s: State, r: Request)
    requires AtRest(s)
    ensures Honoured(Begin(s, r), |s.log|)
  {
    if r.Cache? {
      BeginCacheHonours(s, r.operation, r.address, r.query);
    } else if r.Traffic? {
      BeginTrafficHonours(s, r.registration, r.query);
    } else {
      PlainRequestHonours(s, r);
    }
  }

  lemma CallSettles(s: State, v: Visit)
    requires AtRest(s)
    ensures AtRest(Drive(Begin(s, v.request), v.answers).state)
    ensures Settled(Drive(Begin(s, v.request), v.answers).state, |s.log|)
  {
    BeginKeeps(s, v.request);
    BeginHonours(s, v.request);
    DriveKeeps(Begin(s, v.request), v.answers);
    DriveHonours(Begin(s, v.request), v.answers, |s.log|);
  }

  /** Every teardown that the log of `t` shows as put off from position `n` on is done. */
  predicate CarriedOut(t: State, n: nat) {
    && (forall k :: n <= k < |t.log| && (t.log[k] == Deferred(Close) || t.log[k] == Deferred(Forget)) ==> !t.bound)
    && (forall k :: n <= k < |t.log| && t.log[k].Deferred? ==>
          t.entries == Empties(MAXIMUM_PEERS) && t.trafficPeer == ZERO_ADDRESS && !t.active)
  }

  lemma SettledIsCarriedOut(t: State, n: nat)
    requires Settled(t, n)
    ensures CarriedOut(t, n)
  {
    forall k | n <= k < |t.log| && t.log[k].Deferred? ensures Told(t.log, n, t.log[k].what) {
      ToldMeans(t.log, n, t.log[k].what);
    }
    forall k | n <= k < |t.log| && t.log[k].Deferred?
      ensures t.entries == Empties(MAXIMUM_PEERS) && t.trafficPeer == ZERO_ADDRESS && !t.active
    {
      var what := t.log[k].what;
      assert what == Close || what == Forget || what == Disable;
    }
  }

  /** A disable, shutdown or abandonment that arrives during any call, in any run, has been
      carried out when the call returns, and nothing is left pending. */
  lemma TeardownsAreCarriedOut(visits: seq<Visit>, v: Visit)
    ensures var s := Run(START, visits);
      var t := Drive(Begin(s, v.request), v.answers).state;
      CarriedOut(t, |s.log|) && t.Resting() && !Pending(t)
  {
    StartRests();
    RunKeeps(START, visits);
    CallSettles(Run(START, visits), v);
    SettledIsCarriedOut(Drive(Begin(Run(START, visits), v.request), v.answers).state, |Run(START, visits).log|);
  }

  // -------------------------------------------------------------------------
  // An abandonment that was put off
  // -------------------------------------------------------------------------

  /** The new events hold no hardware command, but for the removal of `undo` if there is one. */
  predicate OnlyUndoes(earlier: seq<Event>, later: seq<Event>, undo: Option<Address>) {
    && earlier <= later
    && forall k :: |earlier| <= k < |later| && later[k].Began? ==> undo.Some? && later[k] == Began(undo.value, false)
  }

  /** The peer that the transaction may still remove: one whose handoff is under way. */
  function Undo(p: Point): Option<Address>
    requires |p.state.entries| == MAXIMUM_PEERS && InTable(p.pc)
  {
    if p.pc.Posting? && p.pc.add then Some(p.state.entries[p.pc.index].address) else None
  }

  predicate Abandoned(p: Point) {
    At(p) && p.state.busy && p.state.abandonPending
  }

  lemma {:induction false} CallOutUndoes(s: State, requests: seq<Request>, undo: Option<Address>)
    requires |s.entries| == MAXIMUM_PEERS && !s.Resting()
    ensures OnlyUndoes(s.log, CallOut(s, requests).log, undo)
    ensures s.abandonPending ==> CallOut(s, requests).abandonPending
    decreases |requests|
  {
    if requests != [] {
      ReentryOnlyMarks(s, requests[0]);
      CallOutUndoes(Begin(s, requests[0]).state, requests[1..], undo);
    }
  }

  /** The transaction ends here: the table is handed off, with no hardware command. */
  lemma HandsOff(s: State, result: IOReturn, earlier: seq<Event>, undo: Option<Address>)
    requires |s.entries| == MAXIMUM_PEERS && s.abandonPending && !s.closing && OnlyUndoes(earlier, s.log, undo)
    ensures EndsHandedOff(EndTransaction(s, result), earlier, undo)
  {
  }

  predicate EndsHandedOff(q: Point, earlier: seq<Event>, undo: Option<Address>) {
    && q.pc.Done? && OnlyUndoes(earlier, q.state.log, undo)
    && q.state.log != [] && q.state.log[|q.state.log| - 1].HandedOff?
  }

  lemma AddHandsOff(s: State, i: nat, a: Address, result: PeerResult)
    requires Adding(s, i, a) && s.abandonPending
    ensures var t := FinishAdd(s, i, a, result);
      && EndsHandedOff(CacheAdded(t, i, a, result), s.log, None)
      && EndsHandedOff(TrafficAdded(t, i, a, result), s.log, None)
  {
    var t := FinishAdd(s, i, a, result);
    assert !t.active && t.abandonPending;
    HandsOff(t, NotReady, s.log, None);
    HandsOff(t, t.lastError, s.log, None);
  }

  lemma RemovalHandsOff(s: State, i: nat, b: Address, result: PeerResult)
    requires Removing(s, i) && s.abandonPending
    ensures var t := FinishRemove(s, i, result);
      && EndsHandedOff(CacheCleared(t, i, b, result), s.log, None)
      && EndsHandedOff(TrafficCleared(t, result), s.log, None)
      && EndsHandedOff(EndTransaction(t, NotReady), s.log, None)
  {
    var t := FinishRemove(s, i, result);
    assert !t.active && t.abandonPending;
    HandsOff(t, NotReady, s.log, None);
    HandsOff(t, t.lastError, s.log, None);
  }

  lemma AnswerHandsOff(p: Point, result: PeerResult)
    requires Abandoned(p) && !p.pc.Done? && !p.pc.Posting?
    ensures EndsHandedOff(Resume(p.state, p.pc, result), p.state.log, None)
  {
    match p.pc
    case AddingForCache(i, b) => AddHandsOff(p.state, i, b, result);
    case AddingForTraffic(i, b) => AddHandsOff(p.state, i, b, result);
    case RemovingForCache(i, b) => RemovalHandsOff(p.state, i, b, result);
    case RemovingForTraffic(i) => RemovalHandsOff(p.state, i, ZERO_ADDRESS, result);
    case Unwinding(i) => RemovalHandsOff(p.state, i, ZERO_ADDRESS, result);
  }

  /** A completion that answers ends the transaction, or starts to undo the add. */
  lemma HandoffAbandoned(p: Point, result: PeerResult)
    requires Abandoned(p) && p.pc.Posting?
    ensures var q := Resume(p.state, p.pc, result);
      || EndsHandedOff(q, p.state.log, Undo(p))
      || (q.pc.Unwinding? && Abandoned(q) && OnlyUndoes(p.state.log, q.state.log, Undo(p)))
  {
    var t := p.state.Log(Completed(p.pc.address, p.pc.add, result == Ok));
    HandsOff(t, Success, p.state.log, Undo(p));
    HandsOff(t, NotReady, p.state.log, Undo(p));
    ResumeKeeps(p, result);
    if p.pc.add && result != Ok {
      var u := t.Put(p.pc.index, t.entries[p.pc.index].(cached := p.pc.previous.cached));
      HandsOff(u, NotReady, p.state.log, Undo(p));
    }
  }

  lemma HandedOffSince(q: Point, earlier: seq<Event>, middle: seq<Event>, undo: Option<Address>)
    requires OnlyUndoes(earlier, middle, undo) && (EndsHandedOff(q, middle, undo) || EndsHandedOff(q, middle, None))
    ensures EndsHandedOff(q, earlier, undo)
  {
    assert forall k :: 0 <= k < |middle| ==> q.state.log[k] == middle[k];
  }

  /** An abandoned point after the requests of its call-out. */
  lemma StillAbandoned(p: Point, requests: seq<Request>)
    requires Abandoned(p) && !p.pc.Done? && |p.state.entries| == MAXIMUM_PEERS && InTable(p.pc)
    ensures var s := CallOut(p.state, requests);
      && Abandoned(Point(s, p.pc)) && s.entries == p.state.entries && OnlyUndoes(p.state.log, s.log, Undo(p))
  {
    CallOutKeeps(p, requests);
    CallOutFrame(p.state, requests);
    CallOutUndoes(p.state, requests, Undo(p));
  }

  /** Once an abandonment was put off in a transaction, whatever else was or will be asked: no
      hardware command is issued any more, unless an add is being handed off, which may be
      undone; and the transaction ends by handing everything off to the hardware. */
  lemma {:induction false} AbandonmentWins(p: Point, answers: seq<Answer>)
    requires Abandoned(p) && !p.pc.Done? && |p.state.entries| == MAXIMUM_PEERS && InTable(p.pc)
    ensures EndsHandedOff(Drive(p, answers), p.state.log, Undo(p))
    decreases Rank(p.pc)
  {
    var answer := First(answers);
    var s := CallOut(p.state, answer.requests);
    StillAbandoned(p, answer.requests);
    ResumeAdvances(s, p.pc, answer.result);
    var q := Resume(s, p.pc, answer.result);
    if !p.pc.Posting? {
      AnswerHandsOff(Point(s, p.pc), answer.result);
      HandedOffSince(q, p.state.log, s.log, Undo(p));
    } else {
      HandoffAbandoned(Point(s, p.pc), answer.result);
      if q.pc.Done? {
        HandedOffSince(q, p.state.log, s.log, Undo(p));
      } else {
        AbandonmentWins(q, Rest(answers));
        HandedOffSince(Drive(q, Rest(answers)), s.log, q.state.log, Undo(p));
        HandedOffSince(Drive(q, Rest(answers)), p.state.log, s.log, Undo(p));
      }
    }
  }

  // -------------------------------------------------------------------------
  // A cache-add that the native family refuses
  // -------------------------------------------------------------------------

  lemma CallOutFrame(s: State, requests: seq<Request>)
    requires |s.entries| == MAXIMUM_PEERS && !s.Resting()
    ensures var t := CallOut(s, requests);
      && t.entries == s.entries && t.trafficPeer == s.trafficPeer && t.bound == s.bound && t.fault == s.fault
      && t.busy == s.busy && t.closing == s.closing && Holds(t.log) == Holds(s.log)
    decreases |requests|
  {
    if requests != [] {
      ReentryOnlyMarks(s, requests[0]);
      NoteHolds(s, requests[0]);
      CallOutFrame(Begin(s, requests[0]).state, requests[1..]);
    }
  }

  lemma NoteHolds(s: State, r: Request)
    ensures Holds(Mark(s, r).log) == Holds(s.log)
  {
    if Note(s, r) == [] {
      assert s.log + [] == s.log;
    } else {
      QuietEvent(s.log, Note(s, r)[0]);
      assert s.log + Note(s, r) == s.log + [Note(s, r)[0]];
    }
  }

  /** The transaction is over, and failed, with this table and these peers in the hardware;
      `p` is where its deferred teardown, if any, starts. */
  ghost predicate EndsWith(p: Point, table: seq<Entry>, holds: set<Address>)
    requires |table| == MAXIMUM_PEERS
  {
    exists u: State :: u.entries == table && Holds(u.log) == holds && p == EndTransaction(u, NotReady)
  }

  lemma KnownPeerRestored(s: State, a: Address, i: nat, requests: seq<Request>, result: PeerResult)
    requires AtRest(s) && s.active && Find(s.entries, a) == Some(i)
    requires s.entries[i].installed && !s.entries[i].retiring && result != Ok
    ensures var p := CacheInstalled(s.(busy := true), i, a, s.entries[i]);
      && p.pc == Posting(i, a, true, s.entries[i])
      && EndsWith(Resume(CallOut(p.state, requests), p.pc, result), s.entries, Holds(s.log))
  {
    var p := CacheInstalled(s.(busy := true), i, a, s.entries[i]);
    CallOutFrame(p.state, requests);
    var t := CallOut(p.state, requests).Log(Completed(a, true, false));
    QuietEvent(CallOut(p.state, requests).log, Completed(a, true, false));
    var u := t.Put(i, t.entries[i].(cached := s.entries[i].cached));
    assert u.entries == s.entries;
    assert Resume(CallOut(p.state, requests), p.pc, result) == EndTransaction(u, NotReady);
  }

  /** A cache-add that goes straight to its handoff found the peer in the table. */
  lemma HandoffFoundPeer(s: State, operation: nat, a: Address, q: Query)
    requires AtRest(s) && operation != 2 && BeginCache(s, operation, a, q).pc.Posting?
    ensures s.active && Reserve(s.(busy := true), a, q.capacity).Held?
    ensures var i := Reserve(s.(busy := true), a, q.capacity).index;
      && Find(s.entries, a) == Some(i) && s.entries[i].installed && !s.entries[i].retiring
      && BeginCache(s, operation, a, q) == CacheInstalled(s.(busy := true), i, a, s.entries[i])
  {
  }

  /** A cache-add of a peer in the table whose handoff is refused: whatever was asked in the
      meantime, the transaction ends with the table and the hardware as they were. */
  lemma RefusedHandoffOfKnownPeer(s: State, operation: nat, a: Address, q: Query, requests: seq<Request>,
                                  result: PeerResult)
    requires AtRest(s) && operation != 2 && result != Ok
    requires Begin(s, Cache(operation, a, q)).pc.Posting?
    ensures var p := Begin(s, Cache(operation, a, q));
      EndsWith(Resume(CallOut(p.state, requests), p.pc, result), s.entries, Holds(s.log))
  {
    HandoffFoundPeer(s, operation, a, q);
    KnownPeerRestored(s, a, Reserve(s.(busy := true), a, q.capacity).index, requests, result);
  }

  lemma NewPeerRestored(s: State, a: Address, i: nat, first: seq<Request>, second: seq<Request>,
                        third: seq<Request>, result: PeerResult)
    requires AtRest(s) && s.bound && !s.fault && Unicast(a) && Find(s.entries, a) == None
    requires i < MAXIMUM_PEERS && !s.entries[i].used && result != Ok
    requires CallOut(StartAdd(s.(busy := true), i, a), first).active
    ensures var added := Resume(CallOut(StartAdd(s.(busy := true), i, a), first), AddingForCache(i, a), Ok);
      && added.pc == Posting(i, a, true, EMPTY)
      && var undone := Resume(CallOut(added.state, second), added.pc, result);
      && undone.pc == Unwinding(i)
      && EndsWith(Resume(CallOut(undone.state, third), undone.pc, Ok), s.entries, Holds(s.log) - {a})
  {
    var s1 := StartAdd(s.(busy := true), i, a);
    StartAddKeeps(s.(busy := true), i, a);
    CallOutKeeps(Point(s1, AddingForCache(i, a)), first);
    CallOutFrame(s1, first);
    BeganEvent(s.log, Began(a, true));
    var s2 := FinishAdd(CallOut(s1, first), i, a, Ok);
    EndedEvent(CallOut(s1, first).log, Ended(a, true, Ok));
    var s3 := s2.Put(i, s2.entries[i].(cached := true));
    assert Resume(CallOut(s1, first), AddingForCache(i, a), Ok) == Point(s3, Posting(i, a, true, EMPTY));
    UndoneRestores(s, s3, a, i, second, third, result);
  }

  /** A cache-add that goes to the hardware first took a free slot. */
  lemma AddTookFreeSlot(s: State, operation: nat, a: Address, q: Query)
    requires AtRest(s) && BeginCache(s, operation, a, q).pc.AddingForCache?
    ensures s.active && s.bound && !s.fault && Unicast(a) && Find(s.entries, a) == None
    ensures Reserve(s.(busy := true), a, q.capacity).Fresh?
    ensures var i := Reserve(s.(busy := true), a, q.capacity).index;
      && i < MAXIMUM_PEERS && !s.entries[i].used
      && BeginCache(s, operation, a, q) == Point(StartAdd(s.(busy := true), i, a), AddingForCache(i, a))
  {
  }

  /** A cache-add of a new peer that the hardware accepts and whose handoff is then refused: the
      peer is removed again. When the hardware removes it, the table is as it was and the
      hardware holds what it held, less this peer; that is all it held, exactly if the peer was
      not among those that had been left to the hardware. */
  lemma RefusedHandoffOfNewPeer(s: State, operation: nat, a: Address, q: Query, first: seq<Request>,
                                second: seq<Request>, third: seq<Request>, result: PeerResult)
    requires AtRest(s) && result != Ok && Begin(s, Cache(operation, a, q)).pc.AddingForCache? && !Withdrawn(first)
    ensures var p := Begin(s, Cache(operation, a, q));
      && var added := Resume(CallOut(p.state, first), p.pc, Ok);
      && added.pc.Posting?
      && var undone := Resume(CallOut(added.state, second), added.pc, result);
      && undone.pc.Unwinding?
      && EndsWith(Resume(CallOut(undone.state, third), undone.pc, Ok), s.entries, Holds(s.log) - {a})
    ensures Holds(s.log) - {a} == Holds(s.log) <==> a !in Orphans(s.log)
  {
    AddTookFreeSlot(s, operation, a, q);
    NotInstalled(s, a);
    var i := Reserve(s.(busy := true), a, q.capacity).index;
    CallOutFlags(StartAdd(s.(busy := true), i, a), first);
    NewPeerRestored(s, a, i, first, second, third, result);
  }

  lemma NotInstalled(s: State, a: Address)
    requires AtRest(s) && Find(s.entries, a) == None
    ensures a in Holds(s.log) <==> a in Orphans(s.log)
  {
    assert a !in Installed(s.entries);
  }

  lemma UndoneRestores(s: State, added: State, a: Address, i: nat, second: seq<Request>, third: seq<Request>,
                       result: PeerResult)
    requires AtRest(s) && i < MAXIMUM_PEERS && !s.entries[i].used && result != Ok
    requires added.busy && added.entries == s.entries[i := Entry(a, true, true, false, true, false)]
    requires Holds(added.log) == Holds(s.log) + {a}
    ensures var undone := Resume(CallOut(added, second), Posting(i, a, true, EMPTY), result);
      && undone.pc == Unwinding(i)
      && EndsWith(Resume(CallOut(undone.state, third), undone.pc, Ok), s.entries, Holds(s.log) - {a})
  {
    CallOutFrame(added, second);
    var t := CallOut(added, second).Log(Completed(a, true, false));
    QuietEvent(CallOut(added, second).log, Completed(a, true, false));
    var w := StartRemove(t.Put(i, t.entries[i].(cached := false)), i);
    BeganEvent(t.log, Began(a, false));
    assert w.entries == s.entries[i := Entry(a, true, false, false, true, true)];
    assert Resume(CallOut(added, second), Posting(i, a, true, EMPTY), result) == Point(w, Unwinding(i));
    UnwoundRestores(s, w, a, i, third);
  }

  lemma UnwoundRestores(s: State, w: State, a: Address, i: nat, third: seq<Request>)
    requires AtRest(s) && i < MAXIMUM_PEERS && !s.entries[i].used
    requires w.busy && w.entries == s.entries[i := Entry(a, true, false, false, true, true)]
    requires Holds(w.log) == Holds(s.log) + {a}
    ensures EndsWith(Resume(CallOut(w, third), Unwinding(i), Ok), s.entries, Holds(s.log) - {a})
  {
    CallOutFrame(w, third);
    var u := FinishRemove(CallOut(w, third), i, Ok);
    EndedEvent(CallOut(w, third).log, Ended(a, false, Ok));
    assert u.entries == s.entries;
    assert Resume(CallOut(w, third), Unwinding(i), Ok) == EndTransaction(u, NotReady);
  }

  // -------------------------------------------------------------------------
  // Every peer has an owner
  // -------------------------------------------------------------------------

  /** A peer in the table is held by the cache or by traffic, or is on its way out. */
  predicate HasOwner(e: Entry) {
    e.used ==> e.cached || e.traffic || e.retiring
  }

  /** Every peer but the one at `adding` has an owner. */
  predicate Owned(es: seq<Entry>, adding: int) {
    forall i :: 0 <= i < |es| && i != adding ==> HasOwner(es[i])
  }

  predicate OwnedAt(p: Point) {
    && (p.pc.Clearing? || Owned(p.state.entries, if IsAdding(p.pc) then p.pc.index else -1))
    && (p.pc.Posting? ==> HasOwner(p.pc.previous))
  }

  predicate Withdrawn(requests: seq<Request>) {
    exists r :: r in requests && Withdraws(r)
  }

  predicate TornDown(requests: seq<Request>) {
    exists r :: r in requests && Withdraws(r) && !r.Revoke?
  }

  /** What a call-out of a transaction does to the flags. */
  lemma {:induction false} CallOutFlags(s: State, requests: seq<Request>)
    requires |s.entries| == MAXIMUM_PEERS && s.busy
    ensures CallOut(s, requests).active == (s.active && !Withdrawn(requests))
    ensures Pending(CallOut(s, requests)) == (Pending(s) || TornDown(requests))
    decreases |requests|
  {
    if requests != [] {
      ReentryOnlyMarks(s, requests[0]);
      CallOutFlags(Begin(s, requests[0]).state, requests[1..]);
      FirstOrRest(requests);
    }
  }

  lemma FirstOrRest(requests: seq<Request>)
    requires requests != []
    ensures Withdrawn(requests) == (Withdraws(requests[0]) || Withdrawn(requests[1..]))
    ensures TornDown(requests) == ((Withdraws(requests[0]) && !requests[0].Revoke?) || TornDown(requests[1..]))
  {
    assert requests == [requests[0]] + requests[1..];
  }

  predicate IsAdding(pc: Pc) {
    pc.AddingForCache? || pc.AddingForTraffic?
  }

  lemma ClearFromOwned(s: State, i: nat, unbind: bool, failure: IOReturn, reply: Option<IOReturn>)
    requires |s.entries| == MAXIMUM_PEERS && i <= MAXIMUM_PEERS && forall k :: 0 <= k < i ==> s.entries[k] == EMPTY
    ensures OwnedAt(ClearFrom(s, i, unbind, failure, reply)) && !IsAdding(ClearFrom(s, i, unbind, failure, reply).pc)
  {
  }

  lemma EndTransactionOwned(s: State, result: IOReturn)
    requires |s.entries| == MAXIMUM_PEERS && s.busy && !s.closing
    ensures OwnedAt(EndTransaction(s, result)) == (Pending(s) || Owned(s.entries, -1))
    ensures !IsAdding(EndTransaction(s, result).pc)
  {
    var t := s.(busy := false);
    if !t.abandonPending && Pending(t) {
      ClearFromOwned(t.(closing := true, active := false), 0, t.shutdownPending, Success, Some(result));
    }
  }

  lemma TrafficChosenOwned(s: State, next: Option<nat>, a: Address)
    requires |s.entries| == MAXIMUM_PEERS && s.busy && !s.closing && Owned(s.entries, -1)
    ensures OwnedAt(TrafficChosen(s, next, a)) && !IsAdding(TrafficChosen(s, next, a).pc)
  {
    var was := Find(s.entries, s.trafficPeer);
    if was.None? || was == next {
      TrafficMovedOwned(s.(trafficPeer := a));
    } else {
      TrafficReleasedOwned(s, next, a, was.value);
    }
  }

  lemma TrafficMovedOwned(s: State)
    requires |s.entries| == MAXIMUM_PEERS && s.busy && !s.closing && Owned(s.entries, -1)
    ensures OwnedAt(TrafficMoved(s)) && !IsAdding(TrafficMoved(s).pc)
  {
    EndTransactionOwned(s, if s.active && !s.shutdownPending then Success else NotReady);
  }

  lemma TrafficReleasedOwned(s: State, next: Option<nat>, a: Address, k: nat)
    requires |s.entries| == MAXIMUM_PEERS && s.busy && !s.closing && Owned(s.entries, -1)
    requires Find(s.entries, s.trafficPeer) == Some(k) && next != Some(k)
    ensures OwnedAt(TrafficChosen(s, next, a)) && !IsAdding(TrafficChosen(s, next, a).pc)
  {
    if s.entries[k].cached {
      TrafficMovedOwned(s.(trafficPeer := a).Put(k, s.entries[k].(traffic := false)));
    } else {
      LastOwnerLeaves(s, next, a, k);
    }
  }

  lemma LastOwnerLeaves(s: State, next: Option<nat>, a: Address, k: nat)
    requires |s.entries| == MAXIMUM_PEERS && s.busy && !s.closing && Owned(s.entries, -1)
    requires Find(s.entries, s.trafficPeer) == Some(k) && next != Some(k) && !s.entries[k].cached
    ensures OwnedAt(TrafficChosen(s, next, a)) && !IsAdding(TrafficChosen(s, next, a).pc)
  {
  }

  /** A peer whose add the hardware confirmed is left without an owner exactly when the
      authorization was withdrawn meanwhile and no teardown is pending. */
  lemma AddedOwned(p: Point, result: PeerResult)
    requires At(p) && IsAdding(p.pc) && OwnedAt(p)
    ensures OwnedAt(Resume(p.state, p.pc, result)) ==
            !(result == Ok && !p.state.active && !Pending(p.state))
    ensures !OwnedAt(Resume(p.state, p.pc, result)) ==> Resume(p.state, p.pc, result).pc.Done?
    ensures !IsAdding(Resume(p.state, p.pc, result).pc)
  {
    FinishAddKeeps(p.state, p.pc.index, p.pc.address, result);
    var t := FinishAdd(p.state, p.pc.index, p.pc.address, result);
    if result != Ok {
      EndTransactionOwned(t, t.lastError);
    } else if !t.active || t.shutdownPending {
      EndTransactionOwned(t, NotReady);
      assert !HasOwner(t.entries[p.pc.index]);
    } else if p.pc.AddingForTraffic? {
      TrafficChosenOwned(t.Put(p.pc.index, t.entries[p.pc.index].(traffic := true)), Some(p.pc.index), p.pc.address);
    }
  }

  lemma RemovedOwned(p: Point, result: PeerResult)
    requires At(p) && (p.pc.RemovingForCache? || p.pc.RemovingForTraffic? || p.pc.Unwinding?) && OwnedAt(p)
    ensures OwnedAt(Resume(p.state, p.pc, result)) && !IsAdding(Resume(p.state, p.pc, result).pc)
  {
    var t := FinishRemove(p.state, p.pc.index, result);
    if p.pc.Unwinding? {
      EndTransactionOwned(t, NotReady);
    } else if result != Ok {
      EndTransactionOwned(t, t.lastError);
    } else if p.pc.RemovingForTraffic? {
      TrafficMovedOwned(t);
    } else {
      EndTransactionOwned(t, NotReady);
    }
  }

  lemma PostedOwned(p: Point, result: PeerResult)
    requires At(p) && p.pc.Posting? && OwnedAt(p)
    ensures OwnedAt(Resume(p.state, p.pc, result)) && !IsAdding(Resume(p.state, p.pc, result).pc)
  {
    var t := p.state.Log(Completed(p.pc.address, p.pc.add, result == Ok));
    if result == Ok {
      EndTransactionOwned(t, Success);
    } else if !p.pc.add {
      EndTransactionOwned(t, NotReady);
    } else {
      UndoneOwned(t, p.pc.index, p.pc.address, p.pc.previous);
    }
  }

  lemma UndoneOwned(s: State, i: nat, a: Address, previous: Entry)
    requires |s.entries| == MAXIMUM_PEERS && s.busy && !s.closing && Owned(s.entries, -1) && i < MAXIMUM_PEERS
    requires s.entries[i] == Entry(a, true, true, previous.traffic, true, false)
    requires previous == EMPTY || (previous == s.entries[i].(cached := previous.cached) && HasOwner(previous))
    ensures OwnedAt(UndoCache(s, i, previous)) && !IsAdding(UndoCache(s, i, previous).pc)
  {
    var t := s.Put(i, s.entries[i].(cached := previous.cached));
    if previous.installed || t.entries[i].traffic {
      EndTransactionOwned(t, NotReady);
    }
  }

  lemma ResumeOwned(p: Point, result: PeerResult)
    requires At(p) && !p.pc.Done? && !IsAdding(p.pc) && OwnedAt(p)
    ensures OwnedAt(Resume(p.state, p.pc, result)) && !IsAdding(Resume(p.state, p.pc, result).pc)
  {
    if p.pc.Clearing? {
      SweepOwned(p, result);
    } else if p.pc.Posting? {
      PostedOwned(p, result);
    } else {
      RemovedOwned(p, result);
    }
  }

  lemma SweepOwned(p: Point, result: PeerResult)
    requires At(p) && p.pc.Clearing?
    ensures OwnedAt(Resume(p.state, p.pc, result)) && !IsAdding(Resume(p.state, p.pc, result).pc)
  {
    FinishClearSweeps(p, result);
    var failure := if result == Ok then p.pc.failure else Status(result);
    ClearFromOwned(FinishClear(p.state, p.pc.index, result), p.pc.index + 1, p.pc.unbind, failure, p.pc.reply);
  }

  lemma CallOutOwned(p: Point, requests: seq<Request>)
    requires At(p) && !p.pc.Done? && |p.state.entries| == MAXIMUM_PEERS
    ensures OwnedAt(Point(CallOut(p.state, requests), p.pc)) == OwnedAt(p)
  {
    CallOutFrame(p.state, requests);
  }

  lemma {:induction false} DriveOwned(p: Point, answers: seq<Answer>)
    requires At(p) && !IsAdding(p.pc) && OwnedAt(p)
    ensures |p.state.entries| == MAXIMUM_PEERS && InTable(p.pc) && Owned(Drive(p, answers).state.entries, -1)
    decreases Rank(p.pc)
  {
    AtInTable(p);
    if !p.pc.Done? {
      var answer := First(answers);
      var s := CallOut(p.state, answer.requests);
      CallOutKeeps(p, answer.requests);
      CallOutOwned(p, answer.requests);
      ResumeAdvances(s, p.pc, answer.result);
      ResumeKeeps(Point(s, p.pc), answer.result);
      ResumeOwned(Point(s, p.pc), answer.result);
      DriveOwned(Resume(s, p.pc, answer.result), Rest(answers));
    }
  }

  predicate Unhindered(s: State) {
    s.active && !Pending(s)
  }

  lemma BeginCacheOwned(s: State, operation: nat, a: Address, q: Query)
    requires AtRest(s) && Owned(s.entries, -1)
    ensures OwnedAt(BeginCache(s, operation, a, q))
    ensures IsAdding(BeginCache(s, operation, a, q).pc) ==> Unhindered(BeginCache(s, operation, a, q).state)
  {
    var t := s.(busy := true);
    CacheAddOwned(t, a, q.capacity);
    CacheRemoveOwned(t, a);
  }

  lemma CacheAddOwned(s: State, a: Address, hardware: nat)
    requires |s.entries| == MAXIMUM_PEERS && s.busy && !s.closing && Owned(s.entries, -1)
    ensures OwnedAt(CacheAdd(s, a, hardware))
    ensures IsAdding(CacheAdd(s, a, hardware).pc) && Unhindered(s) ==> Unhindered(CacheAdd(s, a, hardware).state)
  {
    match Reserve(s, a, hardware)
    case Refused(result) => EndTransactionOwned(s, result);
    case Held(i) => EndTransactionOwned(s, NotReady);
    case Fresh(i) =>
  }

  lemma CacheRemoveOwned(s: State, a: Address)
    requires |s.entries| == MAXIMUM_PEERS && s.busy && !s.closing && Owned(s.entries, -1)
    ensures OwnedAt(CacheRemove(s, a)) && !IsAdding(CacheRemove(s, a).pc)
  {
    var i := Find(s.entries, a);
    if i.None? {
      EndTransactionOwned(s, NotReady);
    } else {
      EndTransactionOwned(s.Put(i.value, s.entries[i.value].(cached := false)), NotReady);
    }
  }

  lemma BeginTrafficOwned(s: State, d: Registration, q: Query)
    requires AtRest(s) && Owned(s.entries, -1)
    ensures OwnedAt(BeginTraffic(s, d, q))
    ensures IsAdding(BeginTraffic(s, d, q).pc) ==> Unhindered(BeginTraffic(s, d, q).state)
  {
    var t := s.(busy := true);
    TrafficChosenOwned(t, None, ZERO_ADDRESS);
    TrafficAddOwned(t, d.address, q.capacity);
  }

  lemma TrafficAddOwned(s: State, a: Address, hardware: nat)
    requires |s.entries| == MAXIMUM_PEERS && s.busy && !s.closing && Owned(s.entries, -1)
    ensures OwnedAt(TrafficAdd(s, a, hardware))
    ensures IsAdding(TrafficAdd(s, a, hardware).pc) && Unhindered(s) ==> Unhindered(TrafficAdd(s, a, hardware).state)
  {
    match Reserve(s, a, hardware)
    case Refused(result) => EndTransactionOwned(s, result);
    case Held(i) =>
      EndTransactionOwned(s, NotReady);
      TrafficChosenOwned(s.Put(i, s.entries[i].(traffic := true)), Some(i), a);
    case Fresh(i) =>
  }

  lemma BeginOwned(s: State, r: Request)
    requires AtRest(s) && Owned(s.entries, -1)
    ensures OwnedAt(Begin(s, r)) && (IsAdding(Begin(s, r).pc) ==> Unhindered(Begin(s, r).state))
  {
    if r.Cache? {
      BeginCacheOwned(s, r.operation, r.address, r.query);
    } else if r.Traffic? {
      BeginTrafficOwned(s, r.registration, r.query);
    } else {
      PlainRequestOwned(s, r);
    }
  }

  lemma PlainRequestOwned(s: State, r: Request)
    requires AtRest(s) && Owned(s.entries, -1) && !r.Cache? && !r.Traffic?
    ensures OwnedAt(Begin(s, r)) && !IsAdding(Begin(s, r).pc)
  {
    var t := s.(active := false, closing := true);
    if r.Enable? {
      ClearFromOwned(t, 0, false, Success, None);
    } else if r.Shutdown? {
      ClearFromOwned(t, 0, true, Success, Some(Success));
    }
  }

  /** The call adds a peer, the hardware confirms it, and meanwhile the authorization is
      withdrawn by a bare revocation with no teardown behind it. */
  predicate Strands(s: State, v: Visit)
    requires |s.entries| == MAXIMUM_PEERS
  {
    && IsAdding(Begin(s, v.request).pc)
    && v.answers != [] && v.answers[0].result == Ok
    && Withdrawn(v.answers[0].requests) && !TornDown(v.answers[0].requests)
  }

  lemma AddIsOwned(s: State, v: Visit)
    requires |s.entries| == MAXIMUM_PEERS
    requires At(Begin(s, v.request)) && OwnedAt(Begin(s, v.request)) && IsAdding(Begin(s, v.request).pc)
    requires Unhindered(Begin(s, v.request).state)
    ensures Owned(Drive(Begin(s, v.request), v.answers).state.entries, -1) <==> !Strands(s, v)
  {
    var p := Begin(s, v.request);
    var answer := First(v.answers);
    var t := CallOut(p.state, answer.requests);
    CallOutKeeps(p, answer.requests);
    CallOutOwned(p, answer.requests);
    CallOutFlags(p.state, answer.requests);
    AddedOwned(Point(t, p.pc), answer.result);
    ResumeAdvances(t, p.pc, answer.result);
    ResumeKeeps(Point(t, p.pc), answer.result);
    AddSettles(Resume(t, p.pc, answer.result), Rest(v.answers));
  }

  lemma AddSettles(p: Point, answers: seq<Answer>)
    requires At(p) && !IsAdding(p.pc) && (OwnedAt(p) || p.pc.Done?)
    ensures |p.state.entries| == MAXIMUM_PEERS && InTable(p.pc)
    ensures Owned(Drive(p, answers).state.entries, -1) == OwnedAt(p)
  {
    AtInTable(p);
    if OwnedAt(p) {
      DriveOwned(p, answers);
    }
  }

  /** A call leaves some peer without an owner exactly when it strands the peer it adds. */
  lemma EveryPeerHasAnOwner(s: State, v: Visit)
    requires AtRest(s) && Owned(s.entries, -1)
    ensures Owned(Drive(Begin(s, v.request), v.answers).state.entries, -1) <==> !Strands(s, v)
  {
    var p := Begin(s, v.request);
    BeginKeeps(s, v.request);
    BeginOwned(s, v.request);
    if IsAdding(p.pc) {
      AddIsOwned(s, v);
    } else {
      DriveOwned(p, v.answers);
    }
  }

  /** Such a call exists: bind, enable, then add a peer while somebody revokes. */
  lemma BareRevocationStrands()
    ensures exists visits: seq<Visit>, v: Visit ::
      Owned(Run(START, visits).entries, -1) && Strands(Run(START, visits), v)
  {
    var bind := Visit(Bind(true, 2, Some(2), 1), []);
    var enable := Visit(Enable(true, 1), []);
    var v := Visit(Cache(0, 4, Query(true, Some(2), 1)), [Answer(Ok, [Revoke])]);
    var s0 := Begin(START, bind.request).state;
    var s := s0.(active := true);
    assert Run(s, []) == s;
    assert Run(s0, [enable]) == s by {
      assert Drive(Begin(s0, enable.request), []) == Point(s, Done(Success));
      assert [enable][1..] == [];
    }
    assert Run(START, [bind, enable]) == s by {
      assert Drive(Begin(START, bind.request), []) == Point(s0, Done(Success));
      assert [bind, enable][1..] == [enable];
    }
    NoneUsed(s.entries, 0);
    assert Reserve(s.(busy := true), 4, 1).Fresh?;
    assert Withdrawn(v.answers[0].requests) by {
      assert Revoke in v.answers[0].requests;
    }
    assert Strands(s, v);
  }

  lemma {:induction false} NoneUsed(es: seq<Entry>, from: nat)
    requires from <= |es| && forall i :: 0 <= i < |es| ==> es[i] == EMPTY
    ensures UsedFrom(es, from) == 0
    decreases |es| - from
  {
    if from < |es| {
      NoneUsed(es, from + 1);
    }
  }
}
