/** The two references to a peer: the cache and the active traffic registration. A peer leaves
    the hardware only after every reference to it was taken away, or by a teardown. */
module PeersOwnership {
  import opened Common
  import opened Peers
  import opened PeersProof
  import PT = PeersTheorems

  datatype Owner = ByCache | ByTraffic

  /** Slot `k` holds `a`, owned by `o`. */
  predicate Owns(es: seq<Entry>, k: nat, a: Address, o: Owner) {
    k < |es| && es[k].used && es[k].address == a && (if o.ByCache? then es[k].cached else es[k].traffic)
  }

  predicate Has(es: seq<Entry>, a: Address, o: Owner) {
    exists k: nat :: k < |es| && Owns(es, k, a, o)
  }

  /** The request takes this reference to `a` away. */
  predicate Takes(r: Request, a: Address, o: Owner) {
    if o.ByCache? then r.Cache? && r.operation == 2 && r.address == a
    else r.Traffic? && !(r.registration.active && r.registration.address == a)
  }

  predicate TearsDown(r: Request) {
    Withdraws(r) && !r.Revoke?
  }

  /** The call, or something asked during its call-outs, is a teardown. */
  predicate Ends(v: Visit) {
    TearsDown(v.request) || exists i :: 0 <= i < |v.answers| && PT.TornDown(v.answers[i].requests)
  }

  // -------------------------------------------------------------------------
  // What threatens a reference
  // -------------------------------------------------------------------------

  /** Nothing that is still to be done at `pc` takes the reference away. */
  predicate Spares(pc: Pc, k: nat, o: Owner) {
    && !pc.Clearing?
    && (pc.Posting? && pc.add && pc.index == k && o.ByCache? ==> pc.previous.cached)
    && (pc.AddingForTraffic? ==> o.ByCache?)
  }

  predicate Safe(p: Point, k: nat, a: Address, o: Owner) {
    !Pending(p.state) && Owns(p.state.entries, k, a, o) && Spares(p.pc, k, o)
  }

  lemma EndSafe(s: State, result: IOReturn, k: nat, a: Address, o: Owner)
    requires |s.entries| == MAXIMUM_PEERS && !Pending(s) && Owns(s.entries, k, a, o)
    ensures Safe(EndTransaction(s, result), k, a, o)
  {
  }

  lemma CacheInstalledSafe(s: State, i: nat, b: Address, previous: Entry, k: nat, a: Address, o: Owner)
    requires |s.entries| == MAXIMUM_PEERS && i < MAXIMUM_PEERS && !Pending(s) && Owns(s.entries, k, a, o)
    requires k == i && o.ByCache? ==> previous.cached
    ensures Safe(CacheInstalled(s, i, b, previous), k, a, o)
  {
    EndSafe(s, NotReady, k, a, o);
  }

  lemma CacheRemovedSafe(s: State, b: Address, k: nat, a: Address, o: Owner)
    requires |s.entries| == MAXIMUM_PEERS && !Pending(s) && Owns(s.entries, k, a, o)
    ensures Safe(CacheRemoved(s, b), k, a, o)
  {
    EndSafe(s, NotReady, k, a, o);
  }

  lemma TrafficMovedSafe(s: State, k: nat, a: Address, o: Owner)
    requires |s.entries| == MAXIMUM_PEERS && !Pending(s) && Owns(s.entries, k, a, o)
    ensures Safe(TrafficMoved(s), k, a, o)
  {
    EndSafe(s, if s.active && !s.shutdownPending then Success else NotReady, k, a, o);
  }

  /** Moving the traffic reference spares a cached peer, and the peer it moves to. */
  lemma TrafficChosenSafe(s: State, next: Option<nat>, b: Address, k: nat, a: Address, o: Owner)
    requires |s.entries| == MAXIMUM_PEERS && !Pending(s) && Owns(s.entries, k, a, o)
    requires o.ByTraffic? ==> next == Some(k)
    ensures Safe(TrafficChosen(s, next, b), k, a, o)
  {
    var was := Find(s.entries, s.trafficPeer);
    var t := s.(trafficPeer := b);
    if was.None? || was == next {
      TrafficMovedSafe(t, k, a, o);
    } else {
      var u := t.Put(was.value, t.entries[was.value].(traffic := false));
      assert Owns(u.entries, k, a, o);
      if u.entries[was.value].cached {
        TrafficMovedSafe(u, k, a, o);
      }
    }
  }

  lemma TrafficInstalledSafe(s: State, i: nat, b: Address, k: nat, a: Address, o: Owner)
    requires |s.entries| == MAXIMUM_PEERS && i < MAXIMUM_PEERS && !Pending(s) && Owns(s.entries, k, a, o)
    requires o.ByTraffic? ==> i == k
    ensures Safe(TrafficInstalled(s, i, b), k, a, o)
  {
    EndSafe(s, NotReady, k, a, o);
    var t := s.Put(i, s.entries[i].(traffic := true));
    assert Owns(t.entries, k, a, o);
    TrafficChosenSafe(t, Some(i), b, k, a, o);
  }

  // -------------------------------------------------------------------------
  // Answers
  // -------------------------------------------------------------------------

  lemma AddedSafe(p: Point, result: PeerResult, k: nat, a: Address, o: Owner)
    requires At(p) && Safe(p, k, a, o) && (p.pc.AddingForCache? || p.pc.AddingForTraffic?)
    ensures Safe(Resume(p.state, p.pc, result), k, a, o)
  {
    var t := FinishAdd(p.state, p.pc.index, p.pc.address, result);
    assert k != p.pc.index;
    assert Owns(t.entries, k, a, o) && !Pending(t);
    if result != Ok {
      EndSafe(t, t.lastError, k, a, o);
    } else if p.pc.AddingForCache? {
      CacheInstalledSafe(t, p.pc.index, p.pc.address, EMPTY, k, a, o);
    } else {
      TrafficInstalledSafe(t, p.pc.index, p.pc.address, k, a, o);
    }
  }

  lemma RemovedSafe(p: Point, result: PeerResult, k: nat, a: Address, o: Owner)
    requires At(p) && Safe(p, k, a, o) && (p.pc.RemovingForCache? || p.pc.RemovingForTraffic? || p.pc.Unwinding?)
    ensures Safe(Resume(p.state, p.pc, result), k, a, o)
  {
    var t := FinishRemove(p.state, p.pc.index, result);
    assert k != p.pc.index;
    assert Owns(t.entries, k, a, o) && !Pending(t);
    if p.pc.Unwinding? {
      EndSafe(t, NotReady, k, a, o);
    } else if result != Ok {
      EndSafe(t, t.lastError, k, a, o);
    } else if p.pc.RemovingForCache? {
      CacheRemovedSafe(t, p.pc.address, k, a, o);
    } else {
      TrafficMovedSafe(t, k, a, o);
    }
  }

  lemma PostedSafe(p: Point, result: PeerResult, k: nat, a: Address, o: Owner)
    requires At(p) && Safe(p, k, a, o) && p.pc.Posting?
    ensures Safe(Resume(p.state, p.pc, result), k, a, o)
  {
    var t := p.state.Log(Completed(p.pc.address, p.pc.add, result == Ok));
    if result == Ok {
      EndSafe(t, Success, k, a, o);
    } else if !p.pc.add {
      EndSafe(t, NotReady, k, a, o);
    } else {
      var i, previous := p.pc.index, p.pc.previous;
      var u := t.Put(i, t.entries[i].(cached := previous.cached));
      assert Owns(u.entries, k, a, o);
      if previous.installed || u.entries[i].traffic {
        EndSafe(u, NotReady, k, a, o);
      } else {
        assert i != k;
      }
    }
  }

  lemma ResumeSafe(p: Point, result: PeerResult, k: nat, a: Address, o: Owner)
    requires At(p) && !p.pc.Done? && Safe(p, k, a, o)
    ensures Safe(Resume(p.state, p.pc, result), k, a, o)
  {
    if p.pc.AddingForCache? || p.pc.AddingForTraffic? {
      AddedSafe(p, result, k, a, o);
    } else if p.pc.Posting? {
      PostedSafe(p, result, k, a, o);
    } else {
      RemovedSafe(p, result, k, a, o);
    }
  }

  lemma CallOutSafe(p: Point, requests: seq<Request>, k: nat, a: Address, o: Owner)
    requires At(p) && !p.pc.Done? && Safe(p, k, a, o) && |p.state.entries| == MAXIMUM_PEERS
    requires !PT.TornDown(requests)
    ensures Safe(Point(CallOut(p.state, requests), p.pc), k, a, o)
  {
    PT.CallOutFrame(p.state, requests);
    PT.CallOutFlags(p.state, requests);
  }

  lemma {:induction false} DriveSafe(p: Point, answers: seq<Answer>, k: nat, a: Address, o: Owner)
    requires At(p) && Safe(p, k, a, o)
    requires forall i :: 0 <= i < |answers| ==> !PT.TornDown(answers[i].requests)
    ensures |p.state.entries| == MAXIMUM_PEERS && InTable(p.pc) && Owns(Drive(p, answers).state.entries, k, a, o)
    decreases Rank(p.pc)
  {
    AtInTable(p);
    if !p.pc.Done? {
      var answer := First(answers);
      var s := CallOut(p.state, answer.requests);
      CallOutKeeps(p, answer.requests);
      CallOutSafe(p, answer.requests, k, a, o);
      ResumeAdvances(s, p.pc, answer.result);
      ResumeKeeps(Point(s, p.pc), answer.result);
      ResumeSafe(Point(s, p.pc), answer.result, k, a, o);
      DriveSafe(Resume(s, p.pc, answer.result), Rest(answers), k, a, o);
    }
  }

  // -------------------------------------------------------------------------
  // Requests
  // -------------------------------------------------------------------------

  lemma CacheAddSafe(s: State, b: Address, hardware: nat, k: nat, a: Address, o: Owner)
    requires AtWork(s) && !Pending(s) && Owns(s.entries, k, a, o)
    ensures Safe(CacheAdd(s, b, hardware), k, a, o)
  {
    match Reserve(s, b, hardware)
    case Refused(result) => EndSafe(s, result, k, a, o);
    case Held(i) => CacheInstalledSafe(s, i, b, s.entries[i], k, a, o);
    case Fresh(i) =>
  }

  lemma CacheRemoveSafe(s: State, b: Address, k: nat, a: Address, o: Owner)
    requires AtWork(s) && !Pending(s) && Owns(s.entries, k, a, o) && (o.ByCache? ==> b != a)
    ensures Safe(CacheRemove(s, b), k, a, o)
  {
    var i := Find(s.entries, b);
    if i.None? {
      CacheRemovedSafe(s, b, k, a, o);
    } else {
      var t := s.Put(i.value, s.entries[i.value].(cached := false));
      assert Owns(t.entries, k, a, o);
      if t.entries[i.value].traffic {
        CacheRemovedSafe(t, b, k, a, o);
      } else {
        assert i.value != k;
      }
    }
  }

  lemma TrafficAddSafe(s: State, b: Address, hardware: nat, k: nat, a: Address, o: Owner)
    requires AtWork(s) && !Pending(s) && Owns(s.entries, k, a, o) && (o.ByTraffic? ==> b == a)
    ensures Safe(TrafficAdd(s, b, hardware), k, a, o)
  {
    FindIs(s.entries, k, -1);
    match Reserve(s, b, hardware)
    case Refused(result) => EndSafe(s, result, k, a, o);
    case Held(i) => TrafficInstalledSafe(s, i, b, k, a, o);
    case Fresh(i) =>
  }

  lemma BeginSafe(s: State, r: Request, k: nat, a: Address, o: Owner)
    requires AtRest(s) && Owns(s.entries, k, a, o) && !TearsDown(r) && !Takes(r, a, o)
    ensures Safe(Begin(s, r), k, a, o)
  {
    var t := s.(busy := true);
    if r.Cache? && s.bound {
      CacheAddSafe(t, r.address, r.query.capacity, k, a, o);
      if r.operation == 2 {
        CacheRemoveSafe(t, r.address, k, a, o);
      }
    } else if r.Traffic? && s.bound {
      if r.registration.active {
        TrafficAddSafe(t, r.registration.address, r.query.capacity, k, a, o);
      } else {
        TrafficChosenSafe(t, None, ZERO_ADDRESS, k, a, o);
      }
    }
  }

  // -------------------------------------------------------------------------
  // Calls and runs
  // -------------------------------------------------------------------------

  /** A reference survives every call that neither takes it away nor tears down. */
  lemma ReferencesSurvive(s: State, v: Visit, k: nat, a: Address, o: Owner)
    requires AtRest(s) && Owns(s.entries, k, a, o) && !Ends(v) && !Takes(v.request, a, o)
    ensures Owns(Drive(Begin(s, v.request), v.answers).state.entries, k, a, o)
  {
    BeginKeeps(s, v.request);
    BeginSafe(s, v.request, k, a, o);
    DriveSafe(Begin(s, v.request), v.answers, k, a, o);
  }

  lemma {:induction false} ReferencesSurviveRuns(s: State, visits: seq<Visit>, k: nat, a: Address, o: Owner)
    requires AtRest(s) && Owns(s.entries, k, a, o)
    requires forall v :: v in visits ==> !Ends(v) && !Takes(v.request, a, o)
    ensures Owns(Run(s, visits).entries, k, a, o)
    decreases |visits|
  {
    if visits != [] {
      assert visits[0] in visits;
      ReferencesSurvive(s, visits[0], k, a, o);
      BeginKeeps(s, visits[0].request);
      DriveKeeps(Begin(s, visits[0].request), visits[0].answers);
      ReferencesSurviveRuns(Drive(Begin(s, visits[0].request), visits[0].answers).state, visits[1..], k, a, o);
    }
  }

  lemma OwnedIsHeld(s: State, k: nat, a: Address, o: Owner)
    requires AtRest(s) && Owns(s.entries, k, a, o)
    ensures a in Holds(s.log)
  {
    assert s.entries[k].installed;
    assert a in Installed(s.entries);
  }

  lemma HeldUnlessTaken(before: seq<Visit>, visits: seq<Visit>, a: Address, o: Owner)
    requires Has(Run(START, before).entries, a, o)
    requires forall v :: v in visits ==> !Ends(v) && !Takes(v.request, a, o)
    ensures a in Holds(Run(Run(START, before), visits).log)
  {
    var s := Run(START, before);
    StartRests();
    RunKeeps(START, before);
    RunKeeps(s, visits);
    var k: nat :| k < |s.entries| && Owns(s.entries, k, a, o);
    ReferencesSurviveRuns(s, visits, k, a, o);
    OwnedIsHeld(Run(s, visits), k, a, o);
  }

  /** A peer that was owned and that the hardware no longer holds was torn down, or every
      reference to it was taken away by some call in between. */
  lemma LeavesOnlyWithoutOwner(before: seq<Visit>, visits: seq<Visit>, a: Address, o: Owner)
    requires var s := Run(START, before); Has(s.entries, a, o) && a !in Holds(Run(s, visits).log)
    ensures (exists v :: v in visits && Ends(v)) || (exists v :: v in visits && Takes(v.request, a, o))
  {
    if forall v :: v in visits ==> !Ends(v) && !Takes(v.request, a, o) {
      HeldUnlessTaken(before, visits, a, o);
    }
  }

  /** In particular one call removes a peer from the hardware only if it tears down or takes away
      the only reference: a peer with both references stays. */
  lemma OneCallTakesTheLastOwner(before: seq<Visit>, v: Visit, a: Address)
    requires var s := Run(START, before);
      (Has(s.entries, a, ByCache) || Has(s.entries, a, ByTraffic)) && a !in Holds(Run(s, [v]).log) && !Ends(v)
    ensures var s := Run(START, before);
      && (Has(s.entries, a, ByCache) ==> Takes(v.request, a, ByCache) && !Has(s.entries, a, ByTraffic))
      && (Has(s.entries, a, ByTraffic) ==> Takes(v.request, a, ByTraffic) && !Has(s.entries, a, ByCache))
  {
    var s := Run(START, before);
    if Has(s.entries, a, ByCache) {
      LeavesOnlyWithoutOwner(before, [v], a, ByCache);
    }
    if Has(s.entries, a, ByTraffic) {
      LeavesOnlyWithoutOwner(before, [v], a, ByTraffic);
    }
  }
}
