/** The promises of the runtime, for every run. */
module RuntimeTheorems {
  import opened Common
  import opened Runtime
  import opened RuntimeProof
  import P = Peers
  import PP = PeersProof
  import PT = PeersTheorems

  lemma StartInv()
    ensures Inv(START)
  {
    PP.StartRests();
  }

  /** In every run, with any nesting of calls inside call-outs: the backend is closed at most
      once, with no call in flight, directly after an abandonment that found the peer owner
      neither busy nor closing, and no backend call follows; and a runtime that was opened
      and is stopped has closed it by the time the outermost call returns. */
  lemma BackendClosesExactlyOnce(requests: seq<Request>)
    ensures var t := Run(START, requests);
      && t.calls == 0 && t.peers.state.Resting()
      && (forall k :: 0 <= k < |t.log| && t.log[k].Close? ==>
            k == |t.log| - 1 && t.log[k] == Close(0) && 0 < k && t.log[k - 1] == AbandonPeers(0, true))
      && ((exists k :: 0 <= k < |t.log| && t.log[k].Close?) <==> t.stopped && EverOpened(t.log))
  {
    StartInv();
    CallOutKeeps(START, requests);
    var t := Run(START, requests);
    if t.stopped && EverOpened(t.log) {
      assert t.log[|t.log| - 1].Close?;
    }
  }

  // -------------------------------------------------------------------------
  // Every peer has an owner
  // -------------------------------------------------------------------------

  predicate AllOwned(s: State) {
    s.stopped || PT.Owned(s.peers.state.entries, -1)
  }

  /** The peer being added will find an owner, or the runtime has stopped. */
  predicate Promising(s: State) {
    s.stopped || (PT.OwnedAt(s.peers)
                  && (PT.IsAdding(s.peers.pc) ==> s.peers.state.active || P.Pending(s.peers.state)))
  }

  /** What nested calls do to ownership: between transactions they keep it, and inside one
      they withdraw authorization only by leaving a teardown pending or by stopping. */
  predicate Keeps(s: State, t: State) {
    && (s.peers.pc.Done? && AllOwned(s) ==> AllOwned(t))
    && (!s.peers.pc.Done? ==>
          && t.peers.state.entries == s.peers.state.entries && t.peers.state.busy == s.peers.state.busy
          && (P.Pending(s.peers.state) ==> P.Pending(t.peers.state))
          && (t.stopped || P.Pending(t.peers.state) || t.peers.state.active == s.peers.state.active
              || !s.peers.state.busy))
  }

  lemma KeepsTransitive(s: State, t: State, u: State)
    requires Keeps(s, t) && Keeps(t, u) && Nested(s, t) && (t.stopped ==> u.stopped)
    ensures Keeps(s, u)
  {
  }

  lemma PromiseSurvives(s: State, t: State)
    requires Inv(s) && !s.peers.pc.Done? && Promising(s) && Keeps(s, t) && Nested(s, t)
    ensures Promising(t)
  {
  }

  lemma PeersResumeOwned(s: State, result: P.PeerResult)
    requires Inv(s) && s.calls > 0 && s.attempted && !s.peers.pc.Done? && Promising(s)
    ensures Sized(s) && Promising(PeersResume(s, result))
  {
    InvSized(s);
    if !s.stopped {
      if PT.IsAdding(s.peers.pc) {
        PT.AddedOwned(s.peers, result);
      } else {
        PT.ResumeOwned(s.peers, result);
      }
    }
  }

  lemma PeersFinishOwned(s: State)
    requires Inv(s) && Promising(s)
    ensures Sized(s) && AllOwned(PeersFinish(s))
  {
    InvSized(s);
    if !s.stopped {
      if PT.IsAdding(s.peers.pc) {
        AddFinishOwned(s.peers);
      } else {
        PT.DriveOwned(s.peers, []);
      }
    }
  }

  lemma AddFinishOwned(p: P.Point)
    requires PP.At(p) && PT.OwnedAt(p) && PT.IsAdding(p.pc) && (p.state.active || P.Pending(p.state))
    ensures |p.state.entries| == P.MAXIMUM_PEERS && P.InTable(p.pc)
    ensures PT.Owned(P.Drive(p, []).state.entries, -1)
  {
    PP.AtInTable(p);
    assert P.CallOut(p.state, []) == p.state;
    PT.AddedOwned(p, P.Ok);
    PP.ResumeKeeps(p, P.Ok);
    PT.DriveOwned(P.Resume(p.state, p.pc, P.Ok), []);
  }

  /** A peer request inside an open transaction. */
  lemma ReentryOwned(s: State, r: P.Request)
    requires Inv(s) && !s.peers.pc.Done?
    ensures Sized(s) && PeersBegin(s, r).peers.state == PP.Mark(s.peers.state, r)
    ensures !PP.Withdraws(r) || (r.Enable? && !r.value) ==> Keeps(s, PeersBegin(s, r))
    ensures PeersBegin(s, r).stopped ==> Keeps(s, PeersBegin(s, r))
  {
    InvSized(s);
    PP.ReentryOnlyMarks(s.peers.state, r);
  }

  /** A peer request at rest that does not call out. */
  lemma ImmediateOwned(s: State, r: P.Request)
    requires Inv(s) && s.peers.pc.Done? && Immediate(r)
    ensures Sized(s) && Keeps(s, PeersBegin(s, r))
  {
    InvSized(s);
  }

  lemma {:induction false} CallOutOwned(s: State, requests: seq<Request>)
    requires Inv(s)
    ensures Sized(s) && Keeps(s, CallOut(s, requests))
    decreases requests, 0
  {
    InvSized(s);
    if requests != [] {
      StepKeeps(s, requests[0]);
      StepOwned(s, requests[0]);
      CallOutKeeps(Step(s, requests[0]), requests[1..]);
      CallOutOwned(Step(s, requests[0]), requests[1..]);
      KeepsTransitive(s, Step(s, requests[0]), CallOut(s, requests));
    }
  }

  lemma {:induction false} PeersDriveOwned(s: State, answers: seq<Reply>)
    requires Inv(s) && s.calls > 0 && s.attempted && Promising(s)
    ensures Sized(s) && AllOwned(PeersDrive(s, answers))
    decreases answers, 0
  {
    InvSized(s);
    if s.peers.pc.Done? {
    } else if answers == [] {
      PeersFinishOwned(s);
    } else {
      var t := CallOut(s, answers[0].requests);
      CallOutKeeps(s, answers[0].requests);
      CallOutOwned(s, answers[0].requests);
      PromiseSurvives(s, t);
      PeersResumeKeeps(t, answers[0].result);
      PeersResumeOwned(t, answers[0].result);
      PeersDriveOwned(PeersResume(t, answers[0].result), answers[1..]);
    }
  }

  lemma PeersBeginPromises(s: State, r: P.Request)
    requires Inv(s) && s.peers.pc.Done? && AllOwned(s)
    ensures Sized(s) && Promising(PeersBegin(s, r))
  {
    InvSized(s);
    if !s.stopped {
      PT.BeginOwned(s.peers.state, r);
    }
  }

  /** Requests other than bare revocations, shutdowns and abandonments. */
  predicate Civil(r: P.Request) {
    PP.Withdraws(r) ==> r.Enable?
  }

  lemma PeersCallOwned(s: State, r: P.Request, answers: seq<Reply>)
    requires Inv(s) && s.calls > 0 && s.attempted && Civil(r)
    ensures Sized(s) && Keeps(s, PeersCall(s, r, answers))
    decreases answers, 1
  {
    InvSized(s);
    PeersBeginKeeps(s, r);
    if !s.peers.pc.Done? {
      ReentryOwned(s, r);
    } else if AllOwned(s) {
      PeersBeginPromises(s, r);
      PeersDriveOwned(PeersBegin(s, r), answers);
    }
  }

  lemma LeaveOwned(s: State, closing: seq<Request>)
    requires Inv(s) && s.calls > 0 && (s.calls == 1 ==> s.peers.pc.Done?)
    ensures Sized(s) && Keeps(s, Leave(s, closing))
  {
    LeaveKeeps(s, closing);
  }

  /** Leaving a call whose body kept ownership. */
  lemma LeaveKeepsOwned(s: State, t: State, closing: seq<Request>)
    requires Inv(s) && Inv(t) && Nested(Enter(s), t) && Keeps(Enter(s), t)
    ensures Sized(t) && Keeps(s, Leave(t, closing))
  {
    LeaveKeeps(t, closing);
    LeaveOwned(t, closing);
    KeepsTransitive(Enter(s), t, Leave(t, closing));
  }

  /** Entering a call and making one backend call in it. */
  lemma InsideOwned(s: State, e: Event, requests: seq<Request>)
    requires Inv(s) && !IsClosed(s) && Plain(e)
    ensures Sized(s) && Keeps(Enter(s), Inside(s, e, requests))
    decreases requests, 1
  {
    EnterKeeps(s);
    LogKeeps(Enter(s), e);
    CallOutOwned(Enter(s).Log(e), requests);
  }

  lemma AppliedOwned(s: State, r: Request)
    requires Inv(s) && (r.SetAddress? || r.Radio? || r.Control?) && s.isOpen && !s.stopped
    ensures Sized(s) && Keeps(s, Applied(s, r))
    decreases r, 0
  {
    EnteredKeeps(s, Apply(WorkOf(r), s.calls + 1), r.apply.requests);
    InsideOwned(s, Apply(WorkOf(r), s.calls + 1), r.apply.requests);
    LeaveKeepsOwned(s, Inside(s, Apply(WorkOf(r), s.calls + 1), r.apply.requests), r.closing);
  }

  lemma PeerStepOwned(s: State, r: Request)
    requires Inv(s) && r.Peer? && s.isOpen && !s.stopped
    ensures Sized(s) && Keeps(s, PeerStep(s, r))
    decreases r, 0
  {
    InvSized(s);
    EnterKeeps(s);
    var e := Enter(s).Log(PeerRequest(r.work, s.calls + 1));
    LogKeeps(Enter(s), PeerRequest(r.work, s.calls + 1));
    LeaveKeepsOwned(s, Enter(s), r.closing);
    PeersCallKeeps(e, WorkRequest(r.work), r.answers);
    PeersCallOwned(e, WorkRequest(r.work), r.answers);
    LeaveKeepsOwned(s, PeersCall(e, WorkRequest(r.work), r.answers), r.closing);
  }

  lemma StoppedOwned(s: State)
    requires Inv(s) && !s.stopped
    ensures Sized(s) && Keeps(s, Stopped(s))
  {
    InvSized(s);
    if !s.peers.pc.Done? {
      PP.ReentryOnlyMarks(s.peers.state, P.Revoke);
    }
  }

  lemma ShutdownOwned(s: State, r: Request)
    requires Inv(s) && r.Shutdown?
    ensures Sized(s) && Keeps(s, Step(s, r))
  {
    InvSized(s);
    if !s.stopped {
      if s.calls > 0 {
        StoppedOwned(s);
      } else {
        StoppedAtRest(s);
        FinishKeeps(Stopped(s), r.closing);
      }
    }
  }

  lemma PrepareOwned(s: State, r: Request)
    requires Inv(s) && r.Prepare? && !(s.stopped || s.isOpen || !r.arguments || !r.capable)
    ensures Sized(s) && Keeps(s, PrepareStep(s, r))
    decreases r, 0
  {
    InvSized(s);
    OpenKeeps(s);
    CallOutKeeps(Opening(s), r.open.requests);
    CallOutOwned(Opening(s), r.open.requests);
    var t := CallOut(Opening(s), r.open.requests);
    PreparedKeeps(t, r.open.ok, BindRequest(r.binding), r.configured);
    PreparedOwned(t, r.open.ok, BindRequest(r.binding), r.configured);
    var u := Prepared(t, r.open.ok, BindRequest(r.binding), r.configured);
    KeepsTransitive(Opening(s), t, u);
    LeaveKeepsOwned(s, u, r.closing);
  }

  lemma PreparedOwned(s: State, answered: bool, bind: P.Request, configured: bool)
    requires Inv(s) && s.calls > 0 && s.attempted && bind.Bind?
    ensures Sized(s) && Keeps(s, Prepared(s, answered, bind, configured))
  {
    InvSized(s);
    if s.stopped {
    } else if !answered {
      StoppedOwned(s);
    } else {
      BoundOwned(s, bind, configured);
    }
  }

  lemma BoundOwned(s: State, bind: P.Request, configured: bool)
    requires Inv(s) && s.calls > 0 && s.attempted && bind.Bind? && !s.stopped
    ensures Sized(s) && Keeps(s, Prepared(s, true, bind, configured))
  {
    InvSized(s);
    var e := s.Log(BindPeers(s.calls));
    LogKeeps(s, BindPeers(s.calls));
    PeersBeginKeeps(e, bind);
    var t := PeersBegin(e, bind);
    if s.peers.pc.Done? {
      ImmediateOwned(e, bind);
    } else {
      ReentryOwned(e, bind);
    }
    StoppedOwned(t);
    StoppedKeeps(t);
    KeepsTransitive(e, t, Stopped(t));
  }

  lemma TurnOnOwned(s: State, r: Request)
    requires Inv(s) && r.Enable? && s.isOpen && !s.stopped && r.ready && !s.enabled
    ensures Sized(s) && Keeps(s, TurnOn(s, r))
    decreases r, 1, 1
  {
    EnteredKeeps(s, Activate(true, s.calls + 1), r.activate.requests);
    InsideOwned(s, Activate(true, s.calls + 1), r.activate.requests);
    ActivatedOwned(s, Inside(s, Activate(true, s.calls + 1), r.activate.requests), r);
  }

  lemma ActivatedOwned(s: State, t: State, r: Request)
    requires Inv(s) && s.isOpen && Inv(t) && Nested(Enter(s), t) && Keeps(Enter(s), t) && r.Enable?
    ensures Sized(t) && Keeps(s, Activated(t, r))
    decreases r, 1, 0
  {
    InvSized(t);
    if t.stopped || !r.activate.ok {
      LeaveKeepsOwned(s, t, r.closing);
    } else {
      PeersOnKeeps(t, r);
      PeersOnOwned(t, r);
      KeepsTransitive(Enter(s), t, PeersOn(t, r));
      LeaveKeepsOwned(s, PeersOn(t, r), r.closing);
    }
  }

  lemma PeersOnOwned(s: State, r: Request)
    requires Inv(s) && s.isOpen && !s.stopped && s.calls > 0 && r.Enable?
    ensures Sized(s) && Keeps(s, PeersOn(s, r))
    decreases r, 0
  {
    InvSized(s);
    var on := P.Enable(true, r.hardware);
    var e := s.Log(EnablePeers(PeersResult(s, on) == Success, s.calls));
    LogKeeps(s, EnablePeers(PeersResult(s, on) == Success, s.calls));
    PeersBeginKeeps(e, on);
    if s.peers.pc.Done? {
      ImmediateOwned(e, on);
    } else {
      ReentryOwned(e, on);
    }
    var t := PeersBegin(e, on);
    var u := t.Log(Activate(false, t.calls));
    LogKeeps(t, Activate(false, t.calls));
    CallOutKeeps(u, r.undo.requests);
    CallOutOwned(u, r.undo.requests);
    KeepsTransitive(e, u, CallOut(u, r.undo.requests));
  }

  lemma TurnOffOwned(s: State, r: Request)
    requires Inv(s) && r.Enable? && s.isOpen && !s.stopped && s.enabled
    ensures Sized(s) && Keeps(s, TurnOff(s, r))
    decreases r, 1
  {
    InvSized(s);
    EnterKeeps(s);
    var d := Disabling(Enter(s));
    DisablingKeeps(Enter(s));
    CallOutKeeps(d, r.activate.requests);
    CallOutOwned(d, r.activate.requests);
    var t := CallOut(d, r.activate.requests);
    DisabledFrame(Enter(s));
    if t.stopped {
      LeaveKeepsOwned(s, t, r.closing);
    } else {
      PeersOffOwned(s, t, r);
    }
  }

  /** Revoking before the radio is turned off leaves the table alone. */
  lemma DisabledFrame(s: State)
    requires Inv(s)
    ensures Sized(s)
    ensures Disabling(s).peers == P.Point(s.peers.state.(active := false),
                                          if s.peers.pc.Done? then P.Done(Success) else s.peers.pc)
  {
    InvSized(s);
  }

  lemma PeersOffOwned(s: State, t: State, r: Request)
    requires Inv(s) && r.Enable? && s.isOpen && !s.stopped && s.enabled && Sized(s)
    requires t == CallOut(Disabling(Enter(s)), r.activate.requests) && !t.stopped
    requires Inv(t) && Nested(Disabling(Enter(s)), t) && Keeps(Disabling(Enter(s)), t)
      && Nested(Enter(s), Disabling(Enter(s)))
    requires Disabling(Enter(s)).peers == P.Point(s.peers.state.(active := false),
                                                  if s.peers.pc.Done? then P.Done(Success) else s.peers.pc)
    ensures Keeps(s, TurnOff(s, r))
    decreases r, 0
  {
    InvSized(t);
    var off := P.Enable(false, r.hardware);
    var e := t.Log(DisablePeers(t.calls));
    LogKeeps(t, DisablePeers(t.calls));
    PeersCallKeeps(e, off, r.answers);
    PeersCallOwned(e, off, r.answers);
    var u := PeersCall(e, off, r.answers);
    if !s.peers.pc.Done? {
      ReentryOwned(e, off);
      assert s.peers.state.busy ==> P.Pending(u.peers.state);
    }
    LeaveKeepsOwned(s, u, r.closing);
  }

  lemma StepOwned(s: State, r: Request)
    requires Inv(s)
    ensures Sized(s) && Keeps(s, Step(s, r))
    decreases r, 3
  {
    InvSized(s);
    if r.Shutdown? {
      ShutdownOwned(s, r);
    } else if r.Prepare? {
      if !(s.stopped || s.isOpen || !r.arguments || !r.capable) {
        PrepareOwned(s, r);
      }
    } else if r.Query? {
      if s.attempted {
        AnsweredOwned(s, r.address);
      }
    } else if s.isOpen && !s.stopped {
      OpenStepOwned(s, r);
    }
  }

  lemma AnsweredOwned(s: State, a: Address)
    requires Inv(s) && s.attempted
    ensures Sized(s) && Keeps(s, Answered(s, a))
  {
    InvSized(s);
    var e := s.Log(Asked(a, P.Authorized(s.peers.state, a)));
    LogKeeps(s, Asked(a, P.Authorized(s.peers.state, a)));
    if s.peers.pc.Done? {
      ImmediateOwned(e, P.Ask(a));
    } else {
      ReentryOwned(e, P.Ask(a));
    }
  }

  lemma OpenStepOwned(s: State, r: Request)
    requires Inv(s) && s.isOpen && !s.stopped && !r.Shutdown? && !r.Prepare? && !r.Query?
    ensures Sized(s) && Keeps(s, Step(s, r))
    decreases r, 2
  {
    InvSized(s);
    if r.Peer? {
      PeerStepOwned(s, r);
    } else if !r.Enable? {
      EnterKeeps(s);
      LeaveKeepsOwned(s, Enter(s), r.closing);
      AppliedOwned(s, r);
    } else if r.value {
      if r.ready && !s.enabled {
        TurnOnOwned(s, r);
      }
    } else if s.enabled {
      TurnOffOwned(s, r);
    }
  }

  /** In every run of the runtime, whenever no call is in flight, every peer in the table is
      held by the cache or by traffic, or is on its way out. */
  lemma EveryPeerHasAnOwnerAtRest(requests: seq<Request>)
    ensures PT.Owned(Run(START, requests).peers.state.entries, -1)
  {
    StartInv();
    CallOutKeeps(START, requests);
    CallOutOwned(START, requests);
    var t := Run(START, requests);
    assert START.peers.state.entries == P.Empties(P.MAXIMUM_PEERS);
    if t.stopped {
      assert t.peers.state.entries == P.Empties(P.MAXIMUM_PEERS);
    }
  }
}
