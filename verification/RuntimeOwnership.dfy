/** The references to a peer under the runtime: in every run, with any nesting of calls, a peer
    leaves the hardware only after the runtime tore the peers down or passed on a request that
    took the reference away. */
module RuntimeOwnership {
  import opened Common
  import opened Runtime
  import opened RuntimeProof
  import RuntimeTheorems
  import P = Peers
  import PO = PeersOwnership
  import PP = PeersProof

  /** A reference: the slot that holds the peer, its address and its owner. */
  datatype Reference = Reference(index: nat, address: Address, owner: PO.Owner)

  /** The call tears the peers down or takes this reference to `a` away. */
  predicate Loses(e: Event, a: Address, o: PO.Owner) {
    || e.DisablePeers?
    || e.AbandonPeers?
    || (e.PeerRequest? && PO.Takes(WorkRequest(e.work), a, o))
  }

  /** No call logged after `log` loses the reference. */
  predicate Lossless(log: seq<Event>, more: seq<Event>, x: Reference) {
    forall i :: |log| <= i < |more| ==> !Loses(more[i], x.address, x.owner)
  }

  predicate Safe(s: State, x: Reference) {
    PO.Safe(s.peers, x.index, x.address, x.owner)
  }

  predicate Stays(s: State, t: State, x: Reference) {
    s.log <= t.log && (Lossless(s.log, t.log, x) && Safe(s, x) ==> Safe(t, x))
  }

  lemma StaysTransitive(s: State, t: State, u: State, x: Reference)
    requires Stays(s, t, x) && Stays(t, u, x)
    ensures Stays(s, u, x)
  {
    if Lossless(s.log, u.log, x) {
      assert forall i :: |s.log| <= i < |t.log| ==> t.log[i] == u.log[i];
      assert Lossless(s.log, t.log, x);
    }
  }

  /** Nothing is claimed after a call that loses the reference. */
  lemma Lost(s: State, e: Event, t: State, x: Reference)
    requires Loses(e, x.address, x.owner) && s.log + [e] <= t.log
    ensures Stays(s, t, x)
  {
    assert t.log[|s.log|] == e;
  }

  // -------------------------------------------------------------------------
  // The peer owner
  // -------------------------------------------------------------------------

  lemma PeersBeginStays(s: State, r: P.Request, x: Reference)
    requires Inv(s) && !PO.TearsDown(r) && !PO.Takes(r, x.address, x.owner)
    ensures Sized(s) && Stays(s, PeersBegin(s, r), x)
  {
    InvSized(s);
    if Safe(s, x) {
      if s.peers.pc.Done? {
        PO.BeginSafe(s.peers.state, r, x.index, x.address, x.owner);
      } else {
        PP.ReentryOnlyMarks(s.peers.state, r);
      }
    }
  }

  lemma PeersResumeStays(s: State, result: P.PeerResult, x: Reference)
    requires Inv(s) && !s.peers.pc.Done?
    ensures Sized(s) && Stays(s, PeersResume(s, result), x)
  {
    InvSized(s);
    if Safe(s, x) {
      PO.ResumeSafe(s.peers, result, x.index, x.address, x.owner);
    }
  }

  lemma PeersFinishStays(s: State, x: Reference)
    requires Inv(s) && s.attempted
    ensures Sized(s) && Stays(s, PeersFinish(s), x)
  {
    InvSized(s);
    if Safe(s, x) {
      PO.DriveSafe(s.peers, [], x.index, x.address, x.owner);
      PP.DriveKeeps(s.peers, []);
    }
  }

  lemma {:induction false} PeersDriveStays(s: State, answers: seq<Reply>, x: Reference)
    requires Inv(s) && s.calls > 0 && s.attempted
    ensures Sized(s) && Stays(s, PeersDrive(s, answers), x)
    decreases answers, 0
  {
    InvSized(s);
    if s.peers.pc.Done? {
    } else if answers == [] {
      PeersFinishStays(s, x);
    } else {
      var t := CallOut(s, answers[0].requests);
      CallOutKeeps(s, answers[0].requests);
      CallOutStays(s, answers[0].requests, x);
      PeersResumeKeeps(t, answers[0].result);
      PeersResumeStays(t, answers[0].result, x);
      StaysTransitive(s, t, PeersResume(t, answers[0].result), x);
      PeersDriveStays(PeersResume(t, answers[0].result), answers[1..], x);
      StaysTransitive(s, PeersResume(t, answers[0].result), PeersDrive(s, answers), x);
    }
  }

  lemma PeersCallStays(s: State, r: P.Request, answers: seq<Reply>, x: Reference)
    requires Inv(s) && s.calls > 0 && s.attempted && !PO.TearsDown(r) && !PO.Takes(r, x.address, x.owner)
    ensures Sized(s) && Stays(s, PeersCall(s, r, answers), x)
    decreases answers, 1
  {
    InvSized(s);
    PeersBeginKeeps(s, r);
    PeersBeginStays(s, r, x);
    if s.peers.pc.Done? {
      PeersDriveStays(PeersBegin(s, r), answers, x);
      StaysTransitive(s, PeersBegin(s, r), PeersCall(s, r, answers), x);
    }
  }

  /** A peer request the runtime logged: it loses the reference, or the reference survives it. */
  lemma RequestStays(s: State, e: Event, r: P.Request, answers: seq<Reply>, x: Reference)
    requires Inv(s) && !IsClosed(s) && s.calls > 0 && s.attempted && Plain(e)
    requires PO.TearsDown(r) || PO.Takes(r, x.address, x.owner) ==> Loses(e, x.address, x.owner)
    ensures Sized(s) && Stays(s, PeersCall(s.Log(e), r, answers), x)
    decreases answers, 2
  {
    InvSized(s);
    LogKeeps(s, e);
    if PO.TearsDown(r) || PO.Takes(r, x.address, x.owner) {
      PeersCallGrows(s.Log(e), r, answers, x);
      Lost(s, e, PeersCall(s.Log(e), r, answers), x);
    } else {
      PeersCallStays(s.Log(e), r, answers, x);
      StaysTransitive(s, s.Log(e), PeersCall(s.Log(e), r, answers), x);
    }
  }

  /** The log only grows, whatever the request. */
  lemma PeersCallGrows(s: State, r: P.Request, answers: seq<Reply>, x: Reference)
    requires Inv(s) && s.calls > 0 && s.attempted
    ensures Sized(s) && s.log <= PeersCall(s, r, answers).log
    decreases answers, 1
  {
    InvSized(s);
    PeersBeginKeeps(s, r);
    if s.peers.pc.Done? {
      PeersDriveStays(PeersBegin(s, r), answers, x);
    }
  }

  // -------------------------------------------------------------------------
  // Every request
  // -------------------------------------------------------------------------

  lemma {:induction false} CallOutStays(s: State, requests: seq<Request>, x: Reference)
    requires Inv(s)
    ensures Sized(s) && Stays(s, CallOut(s, requests), x)
    decreases requests, 0
  {
    InvSized(s);
    if requests != [] {
      StepKeeps(s, requests[0]);
      StepStays(s, requests[0], x);
      CallOutStays(Step(s, requests[0]), requests[1..], x);
      StaysTransitive(s, Step(s, requests[0]), CallOut(s, requests), x);
    }
  }

  /** Closing the backend abandons the peers first. */
  lemma ClosedLoses(s: State, x: Reference)
    requires Sized(s)
    ensures Stays(s, Closed(s), x)
  {
    var e := AbandonPeers(s.calls, s.peers.state.Resting());
    assert Closed(s).log == s.log + [e] + [Close(s.calls)];
    assert s.log + [e] <= Closed(s).log;
    Lost(s, e, Closed(s), x);
  }

  lemma FinishStays(s: State, closing: seq<Request>, x: Reference)
    requires Ending(s)
    ensures Sized(s) && Stays(s, Finish(s, closing), x)
  {
    PP.AtInTable(s.peers);
    if s.attempted {
      ClosedKeeps(s);
      StoppedCallOut(Closed(s), closing);
      ClosedLoses(s, x);
    }
  }

  /** Leaving a call whose body kept the reference. */
  lemma LeaveStays(s: State, t: State, closing: seq<Request>, x: Reference)
    requires Inv(s) && Inv(t) && Nested(Enter(s), t) && Stays(s, t, x)
    ensures Sized(t) && Stays(s, Leave(t, closing), x)
  {
    InvSized(t);
    var u := t.(calls := t.calls - 1);
    if u.calls == 0 && u.stopped {
      FinishStays(u, closing, x);
      StaysTransitive(s, t, Leave(t, closing), x);
    }
  }

  lemma InsideStays(s: State, e: Event, requests: seq<Request>, x: Reference)
    requires Inv(s) && !IsClosed(s) && Plain(e)
    ensures Sized(s) && Stays(s, Inside(s, e, requests), x)
    decreases requests, 1
  {
    InvSized(s);
    EnterKeeps(s);
    LogKeeps(Enter(s), e);
    CallOutStays(Enter(s).Log(e), requests, x);
    StaysTransitive(s, Enter(s).Log(e), Inside(s, e, requests), x);
  }

  lemma AppliedStays(s: State, r: Request, x: Reference)
    requires Inv(s) && (r.SetAddress? || r.Radio? || r.Control?) && s.isOpen && !s.stopped
    ensures Sized(s) && Stays(s, Applied(s, r), x)
    decreases r, 0
  {
    EnteredKeeps(s, Apply(WorkOf(r), s.calls + 1), r.apply.requests);
    InsideStays(s, Apply(WorkOf(r), s.calls + 1), r.apply.requests, x);
    LeaveStays(s, Inside(s, Apply(WorkOf(r), s.calls + 1), r.apply.requests), r.closing, x);
  }

  lemma PeerStepStays(s: State, r: Request, x: Reference)
    requires Inv(s) && r.Peer? && s.isOpen && !s.stopped
    ensures Sized(s) && Stays(s, PeerStep(s, r), x)
    decreases r, 0
  {
    InvSized(s);
    EnterKeeps(s);
    LeaveStays(s, Enter(s), r.closing, x);
    var e := PeerRequest(r.work, s.calls + 1);
    LogKeeps(Enter(s), e);
    PeersCallKeeps(Enter(s).Log(e), WorkRequest(r.work), r.answers);
    RequestStays(Enter(s), e, WorkRequest(r.work), r.answers, x);
    LeaveStays(s, PeersCall(Enter(s).Log(e), WorkRequest(r.work), r.answers), r.closing, x);
  }

  /** Revoking leaves every reference in place. */
  lemma StoppedStays(s: State, x: Reference)
    requires Inv(s) && !s.stopped && s.calls > 0
    ensures Sized(s) && Stays(s, Stopped(s), x)
  {
    InvSized(s);
    var t := s.(stopped := true, enabled := false, isOpen := false);
    LogKeeps(t, RevokePeers(s.calls));
    PeersBeginStays(t.Log(RevokePeers(s.calls)), P.Revoke, x);
    StaysTransitive(s, t.Log(RevokePeers(s.calls)), Stopped(s), x);
  }

  lemma StoppedAtRestStays(s: State, x: Reference)
    requires Inv(s) && !s.stopped && s.calls == 0
    ensures Sized(s) && Stays(s, Stopped(s), x)
  {
    InvSized(s);
    if Safe(s, x) {
      PO.BeginSafe(s.peers.state, P.Revoke, x.index, x.address, x.owner);
    }
  }

  lemma StopStays(s: State, closing: seq<Request>, x: Reference)
    requires Inv(s)
    ensures Sized(s) && Stays(s, Stop(s, closing), x)
  {
    InvSized(s);
    if s.stopped {
    } else if s.calls > 0 {
      StoppedStays(s, x);
    } else {
      StoppedAtRest(s);
      StoppedAtRestStays(s, x);
      FinishStays(Stopped(s), closing, x);
      StaysTransitive(s, Stopped(s), Finish(Stopped(s), closing), x);
    }
  }

  lemma PreparedStays(s: State, answered: bool, bind: P.Request, configured: bool, x: Reference)
    requires Inv(s) && s.calls > 0 && s.attempted && bind.Bind?
    ensures Sized(s) && Stays(s, Prepared(s, answered, bind, configured), x)
  {
    InvSized(s);
    if s.stopped {
    } else if !answered {
      StoppedStays(s, x);
    } else {
      BoundStays(s, bind, configured, x);
    }
  }

  lemma BoundStays(s: State, bind: P.Request, configured: bool, x: Reference)
    requires Inv(s) && s.calls > 0 && s.attempted && bind.Bind? && !s.stopped
    ensures Sized(s) && Stays(s, Prepared(s, true, bind, configured), x)
  {
    InvSized(s);
    var e := s.Log(BindPeers(s.calls));
    LogKeeps(s, BindPeers(s.calls));
    PeersBeginKeeps(e, bind);
    PeersBeginStays(e, bind, x);
    var t := PeersBegin(e, bind);
    StaysTransitive(s, e, t, x);
    StoppedStays(t, x);
    StaysTransitive(s, t, Stopped(t), x);
  }

  lemma PrepareStays(s: State, r: Request, x: Reference)
    requires Inv(s) && r.Prepare? && !(s.stopped || s.isOpen || !r.arguments || !r.capable)
    ensures Sized(s) && Stays(s, PrepareStep(s, r), x)
    decreases r, 0
  {
    InvSized(s);
    OpenKeeps(s);
    CallOutKeeps(Opening(s), r.open.requests);
    CallOutStays(Opening(s), r.open.requests, x);
    var t := CallOut(Opening(s), r.open.requests);
    StaysTransitive(s, Opening(s), t, x);
    PreparedKeeps(t, r.open.ok, BindRequest(r.binding), r.configured);
    PreparedStays(t, r.open.ok, BindRequest(r.binding), r.configured, x);
    var u := Prepared(t, r.open.ok, BindRequest(r.binding), r.configured);
    StaysTransitive(s, t, u, x);
    LeaveStays(s, u, r.closing, x);
  }

  lemma PeersOnStays(s: State, r: Request, x: Reference)
    requires Inv(s) && s.isOpen && !s.stopped && s.calls > 0 && r.Enable?
    ensures Sized(s) && Stays(s, PeersOn(s, r), x)
    decreases r, 0
  {
    InvSized(s);
    var on := P.Enable(true, r.hardware);
    var e := s.Log(EnablePeers(PeersResult(s, on) == Success, s.calls));
    LogKeeps(s, EnablePeers(PeersResult(s, on) == Success, s.calls));
    PeersBeginKeeps(e, on);
    PeersBeginStays(e, on, x);
    var t := PeersBegin(e, on);
    StaysTransitive(s, e, t, x);
    var u := t.Log(Activate(false, t.calls));
    LogKeeps(t, Activate(false, t.calls));
    CallOutStays(u, r.undo.requests, x);
    StaysTransitive(s, u, CallOut(u, r.undo.requests), x);
  }

  lemma TurnOnStays(s: State, r: Request, x: Reference)
    requires Inv(s) && r.Enable? && s.isOpen && !s.stopped && r.ready && !s.enabled
    ensures Sized(s) && Stays(s, TurnOn(s, r), x)
    decreases r, 1, 1
  {
    EnteredKeeps(s, Activate(true, s.calls + 1), r.activate.requests);
    InsideStays(s, Activate(true, s.calls + 1), r.activate.requests, x);
    ActivatedStays(s, Inside(s, Activate(true, s.calls + 1), r.activate.requests), r, x);
  }

  lemma ActivatedStays(s: State, t: State, r: Request, x: Reference)
    requires Inv(s) && s.isOpen && Inv(t) && Nested(Enter(s), t) && Stays(s, t, x) && r.Enable?
    ensures Sized(t) && Stays(s, Activated(t, r), x)
    decreases r, 1, 0
  {
    InvSized(t);
    if t.stopped || !r.activate.ok {
      LeaveStays(s, t, r.closing, x);
    } else {
      PeersOnKeeps(t, r);
      PeersOnStays(t, r, x);
      StaysTransitive(s, t, PeersOn(t, r), x);
      LeaveStays(s, PeersOn(t, r), r.closing, x);
    }
  }

  lemma DisablingStays(s: State, x: Reference)
    requires Inv(s) && !IsClosed(s)
    ensures Sized(s) && Stays(s, Disabling(s), x)
  {
    InvSized(s);
    var e := s.(enabled := false).Log(RevokePeers(s.calls));
    LogKeeps(s.(enabled := false), RevokePeers(s.calls));
    PeersBeginStays(e, P.Revoke, x);
    StaysTransitive(s, e, PeersBegin(e, P.Revoke), x);
    StaysTransitive(s, PeersBegin(e, P.Revoke), Disabling(s), x);
  }

  lemma TurnOffStays(s: State, r: Request, x: Reference)
    requires Inv(s) && r.Enable? && s.isOpen && !s.stopped && s.enabled
    ensures Sized(s) && Stays(s, TurnOff(s, r), x)
    decreases r, 1
  {
    InvSized(s);
    EnterKeeps(s);
    var d := Disabling(Enter(s));
    DisablingKeeps(Enter(s));
    DisablingStays(Enter(s), x);
    CallOutKeeps(d, r.activate.requests);
    CallOutStays(d, r.activate.requests, x);
    var t := CallOut(d, r.activate.requests);
    StaysTransitive(s, d, t, x);
    if t.stopped {
      LeaveStays(s, t, r.closing, x);
    } else {
      PeersOffStays(s, t, r, x);
    }
  }

  lemma PeersOffStays(s: State, t: State, r: Request, x: Reference)
    requires Inv(s) && r.Enable? && Inv(t) && !t.stopped && t.attempted && Nested(Enter(s), t) && Stays(s, t, x)
    ensures Sized(t)
    ensures var e := t.Log(DisablePeers(t.calls));
      Stays(s, Leave(PeersCall(e, P.Enable(false, r.hardware), r.answers), r.closing), x)
    decreases r, 0
  {
    InvSized(t);
    var e := DisablePeers(t.calls);
    LogKeeps(t, e);
    PeersCallKeeps(t.Log(e), P.Enable(false, r.hardware), r.answers);
    RequestStays(t, e, P.Enable(false, r.hardware), r.answers, x);
    var u := PeersCall(t.Log(e), P.Enable(false, r.hardware), r.answers);
    StaysTransitive(s, t, u, x);
    LeaveStays(s, u, r.closing, x);
  }

  lemma AnsweredStays(s: State, a: Address, x: Reference)
    requires Inv(s) && s.attempted
    ensures Sized(s) && Stays(s, Answered(s, a), x)
  {
    InvSized(s);
    var e := Asked(a, P.Authorized(s.peers.state, a));
    LogKeeps(s, e);
    PeersBeginStays(s.Log(e), P.Ask(a), x);
    StaysTransitive(s, s.Log(e), Answered(s, a), x);
  }

  lemma StepStays(s: State, r: Request, x: Reference)
    requires Inv(s)
    ensures Sized(s) && Stays(s, Step(s, r), x)
    decreases r, 3
  {
    InvSized(s);
    if r.Shutdown? {
      StopStays(s, r.closing, x);
    } else if r.Prepare? {
      if !(s.stopped || s.isOpen || !r.arguments || !r.capable) {
        PrepareStays(s, r, x);
      }
    } else if r.Query? {
      if s.attempted {
        AnsweredStays(s, r.address, x);
      }
    } else if s.isOpen && !s.stopped {
      OpenStepStays(s, r, x);
    }
  }

  lemma OpenStepStays(s: State, r: Request, x: Reference)
    requires Inv(s) && s.isOpen && !s.stopped && !r.Shutdown? && !r.Prepare? && !r.Query?
    ensures Sized(s) && Stays(s, Step(s, r), x)
    decreases r, 2
  {
    InvSized(s);
    if r.Peer? {
      PeerStepStays(s, r, x);
    } else if !r.Enable? {
      EnterKeeps(s);
      LeaveStays(s, Enter(s), r.closing, x);
      AppliedStays(s, r, x);
    } else if r.value {
      if r.ready && !s.enabled {
        TurnOnStays(s, r, x);
      }
    } else if s.enabled {
      TurnOffStays(s, r, x);
    }
  }

  // -------------------------------------------------------------------------
  // Runs
  // -------------------------------------------------------------------------

  lemma HeldUnlessLost(before: seq<Request>, requests: seq<Request>, x: Reference)
    requires var s := Run(START, before);
      && PO.Owns(s.peers.state.entries, x.index, x.address, x.owner)
      && Lossless(s.log, Run(s, requests).log, x)
    ensures x.address in P.Holds(Run(Run(START, before), requests).peers.state.log)
  {
    var s := Run(START, before);
    RuntimeTheorems.StartInv();
    CallOutKeeps(START, before);
    CallOutKeeps(s, requests);
    CallOutStays(s, requests, x);
    PO.OwnedIsHeld(Run(s, requests).peers.state, x.index, x.address, x.owner);
  }

  /** In every run, with any nesting of calls: a peer that an owner held and that the hardware no
      longer holds was lost to a teardown of the peers or to a request, passed on by the
      runtime in between, that took this owner's reference away. */
  lemma PeersLeaveOnlyWithoutOwner(before: seq<Request>, requests: seq<Request>, a: Address, o: PO.Owner)
    requires var s := Run(START, before);
      PO.Has(s.peers.state.entries, a, o) && a !in P.Holds(Run(s, requests).peers.state.log)
    ensures var s := Run(START, before); var t := Run(s, requests);
      s.log <= t.log && exists i :: |s.log| <= i < |t.log| && Loses(t.log[i], a, o)
  {
    var s := Run(START, before);
    var k: nat :| k < |s.peers.state.entries| && PO.Owns(s.peers.state.entries, k, a, o);
    var x := Reference(k, a, o);
    RuntimeTheorems.StartInv();
    CallOutKeeps(START, before);
    CallOutStays(s, requests, x);
    if Lossless(s.log, Run(s, requests).log, x) {
      HeldUnlessLost(before, requests, x);
    }
  }
}
