/** What the runtime keeps across every call and every re-entrant call. */
module RuntimeProof {
  import opened Common
  import opened Runtime
  import P = Peers
  import PP = PeersProof

  /** The backend is closed once, as the very last event, with no call in flight and right
      after the peers were abandoned by an owner that was neither busy nor closing. */
  predicate Orderly(log: seq<Event>) {
    && (forall k :: 0 <= k < |log| && log[k].Close? ==>
          k == |log| - 1 && log[k].calls == 0 && 0 < k && log[k - 1] == AbandonPeers(0, true))
    && (forall k :: 0 <= k < |log| && log[k].AbandonPeers? ==> log[k].calls == 0 && log[k].idle)
  }

  predicate IsClosed(s: State) {
    s.log != [] && s.log[|s.log| - 1].Close?
  }

  predicate EverOpened(log: seq<Event>) {
    exists k :: 0 <= k < |log| && log[k].Open?
  }

  predicate Inv(s: State) {
    && PP.At(s.peers)
    && (s.stopped ==> !s.isOpen && !s.enabled)
    && (s.enabled ==> s.isOpen)
    && (s.isOpen ==> s.attempted)
    && (s.calls == 0 ==> s.peers.pc.Done? && (s.stopped ==> !s.attempted))
    && Orderly(s.log)
    && (IsClosed(s) ==> s.stopped && !s.attempted && s.calls == 0 && EverOpened(s.log))
    && (EverOpened(s.log) ==> s.attempted || IsClosed(s))
    && (s.attempted ==> EverOpened(s.log))
    && (!s.attempted ==> !s.peers.state.bound)
  }

  /** What a call made inside another one leaves to the outer call. */
  predicate Nested(s: State, t: State) {
    && t.calls == s.calls
    && (s.stopped ==> t.stopped)
    && (s.isOpen ==> t.isOpen || t.stopped)
    && (s.calls > 0 && s.attempted ==> t.attempted)
    && (if s.peers.pc.Done? then t.peers.pc.Done? else t.peers.pc == s.peers.pc)
  }

  /** What every step keeps. */
  predicate Kept(s: State, t: State) {
    Inv(t) && Nested(s, t)
  }

  lemma InvSized(s: State)
    requires Inv(s)
    ensures Sized(s)
  {
    PP.AtInTable(s.peers);
  }

  // -------------------------------------------------------------------------
  // Single updates
  // -------------------------------------------------------------------------

  /** Logging anything but an open, an abandonment or a close. */
  predicate Plain(e: Event) {
    !e.Open? && !e.AbandonPeers? && !e.Close?
  }

  lemma LogKeeps(s: State, e: Event)
    requires Inv(s) && !IsClosed(s) && Plain(e)
    ensures Inv(s.Log(e)) && !IsClosed(s.Log(e))
  {
    NeverClosed(s.log);
    EverOpenedAfter(s.log, e);
  }

  lemma NeverClosed(log: seq<Event>)
    requires Orderly(log) && (log != [] ==> !log[|log| - 1].Close?)
    ensures forall k :: 0 <= k < |log| ==> !log[k].Close?
  {
  }

  lemma EverOpenedAfter(log: seq<Event>, e: Event)
    ensures EverOpened(log + [e]) == (EverOpened(log) || e.Open?)
  {
    var more := log + [e];
    assert more[|log|] == e;
    if EverOpened(log) {
      var k :| 0 <= k < |log| && log[k].Open?;
      assert more[k].Open?;
    }
  }

  lemma PeersBeginAt(p: P.Point, r: P.Request)
    requires PP.At(p)
    ensures |p.state.entries| == P.MAXIMUM_PEERS
    ensures p.pc.Done? ==> PP.At(P.Begin(p.state, r))
    ensures !p.pc.Done? ==> PP.At(P.Point(P.Begin(p.state, r).state, p.pc))
  {
    PP.AtInTable(p);
    if p.pc.Done? {
      PP.BeginKeeps(p.state, r);
    } else {
      PP.ReentryKeeps(p, r);
    }
  }

  /** Requests that never call out from rest. */
  predicate Immediate(r: P.Request) {
    r.Revoke? || r.Abandon? || r.Bind? || r.Ask? || (r.Enable? && r.value)
  }

  lemma PeersBeginKeeps(s: State, r: P.Request)
    requires Inv(s) && (s.calls > 0 || Immediate(r)) && (s.attempted || r.Revoke? || r.Ask?)
    ensures Sized(s) && Inv(PeersBegin(s, r))
    ensures !s.peers.pc.Done? ==> PeersBegin(s, r).peers.pc == s.peers.pc
    ensures s.peers.pc.Done? && Immediate(r) ==> PeersBegin(s, r).peers.pc.Done?
    ensures PeersBegin(s, r) == s.(peers := PeersBegin(s, r).peers)
  {
    InvSized(s);
    PeersBeginAt(s.peers, r);
  }

  lemma PeersResumeKeeps(s: State, result: P.PeerResult)
    requires Inv(s) && s.calls > 0 && s.attempted && !s.peers.pc.Done?
    ensures Sized(s) && Inv(PeersResume(s, result))
      && PeersResume(s, result) == s.(peers := PeersResume(s, result).peers)
  {
    InvSized(s);
    PP.ResumeKeeps(s.peers, result);
  }

  lemma PeersFinishKeeps(s: State)
    requires Inv(s) && s.attempted
    ensures Sized(s) && Inv(PeersFinish(s)) && PeersFinish(s) == s.(peers := PeersFinish(s).peers)
  {
    InvSized(s);
    PP.DriveKeeps(s.peers, []);
  }

  lemma EnterKeeps(s: State)
    requires Inv(s) && !IsClosed(s)
    ensures Inv(Enter(s)) && !IsClosed(Enter(s))
  {
  }

  // -------------------------------------------------------------------------
  // After the end
  // -------------------------------------------------------------------------

  /** A runtime that has stopped with no call in flight ignores every request. */
  lemma StoppedIsInert(s: State, r: Request)
    requires Sized(s) && s.stopped && !s.isOpen && !s.enabled && !s.attempted
    ensures Step(s, r) == s
  {
  }

  lemma {:induction false} StoppedCallOut(s: State, requests: seq<Request>)
    requires Sized(s) && s.stopped && !s.isOpen && !s.enabled && !s.attempted
    ensures CallOut(s, requests) == s
    decreases |requests|
  {
    if requests != [] {
      StoppedIsInert(s, requests[0]);
      StoppedCallOut(s, requests[1..]);
    }
  }

  /** Ending the outermost call of a stopped runtime. */
  predicate Ending(s: State) {
    && P.AtRest(s.peers.state) && s.peers.pc.Done? && s.stopped && !s.isOpen && !s.enabled && s.calls == 0
    && Orderly(s.log) && !IsClosed(s) && (EverOpened(s.log) == s.attempted)
    && (!s.attempted ==> !s.peers.state.bound)
  }

  lemma ClosedKeeps(s: State)
    requires Ending(s) && s.attempted
    ensures Sized(s) && Inv(Closed(s)) && IsClosed(Closed(s)) && Closed(s).peers.pc.Done? && Closed(s).calls == 0
    ensures Closed(s).stopped && !Closed(s).attempted
  {
    PP.AtInTable(s.peers);
    PP.BeginKeeps(s.peers.state, P.Abandon);
    var idle := AbandonPeers(0, true);
    var log := s.log + [idle] + [Close(0)];
    assert Closed(s).log == log;
    EverOpenedAfter(s.log, idle);
    EverOpenedAfter(s.log + [idle], Close(0));
    OrderlyEnd(s.log);
  }

  lemma OrderlyEnd(log: seq<Event>)
    requires Orderly(log) && (log != [] ==> !log[|log| - 1].Close?)
    ensures Orderly(log + [AbandonPeers(0, true)] + [Close(0)])
  {
    NeverClosed(log);
  }

  lemma FinishKeeps(s: State, closing: seq<Request>)
    requires Ending(s)
    ensures Sized(s) && Inv(Finish(s, closing)) && Finish(s, closing).calls == 0
    ensures Finish(s, closing).stopped && Finish(s, closing).peers.pc.Done?
  {
    PP.AtInTable(s.peers);
    if s.attempted {
      ClosedKeeps(s);
      StoppedCallOut(Closed(s), closing);
    }
  }

  lemma LeaveKeeps(s: State, closing: seq<Request>)
    requires Inv(s) && s.calls > 0 && (s.calls == 1 ==> s.peers.pc.Done?)
    ensures Sized(s) && Inv(Leave(s, closing))
    ensures Leave(s, closing).calls == s.calls - 1 && (s.stopped ==> Leave(s, closing).stopped)
    ensures s.isOpen ==> Leave(s, closing).isOpen
    ensures s.calls > 1 ==> Leave(s, closing) == s.(calls := s.calls - 1)
    ensures s.calls == 1 ==> Leave(s, closing).peers.pc.Done?
  {
    InvSized(s);
    var t := s.(calls := s.calls - 1);
    if t.calls == 0 && t.stopped {
      FinishKeeps(t, closing);
    }
  }

  lemma StoppedKeeps(s: State)
    requires Inv(s) && !s.stopped && s.calls > 0
    ensures Sized(s) && Kept(s, Stopped(s)) && Stopped(s).stopped
  {
    InvSized(s);
    var t := s.(stopped := true, enabled := false, isOpen := false);
    LogKeeps(t, RevokePeers(s.calls));
    PeersBeginKeeps(t.Log(RevokePeers(s.calls)), P.Revoke);
  }

  // -------------------------------------------------------------------------
  // Every request
  // -------------------------------------------------------------------------

  lemma {:induction false} CallOutKeeps(s: State, requests: seq<Request>)
    requires Inv(s)
    ensures Sized(s) && Kept(s, CallOut(s, requests))
    decreases requests, 0
  {
    InvSized(s);
    if requests != [] {
      StepKeeps(s, requests[0]);
      CallOutKeeps(Step(s, requests[0]), requests[1..]);
    }
  }

  /** A peer transaction inside a runtime call runs to its end. */
  lemma {:induction false} PeersDriveKeeps(s: State, answers: seq<Reply>)
    requires Inv(s) && s.calls > 0 && s.attempted
    ensures Sized(s) && Inv(PeersDrive(s, answers)) && PeersDrive(s, answers).peers.pc.Done?
    ensures PeersDrive(s, answers).calls == s.calls && (s.stopped ==> PeersDrive(s, answers).stopped)
    ensures s.attempted ==> PeersDrive(s, answers).attempted
    ensures s.isOpen ==> PeersDrive(s, answers).isOpen || PeersDrive(s, answers).stopped
    decreases answers, 0
  {
    InvSized(s);
    if s.peers.pc.Done? {
    } else if answers == [] {
      PeersFinishKeeps(s);
    } else {
      var t := CallOut(s, answers[0].requests);
      CallOutKeeps(s, answers[0].requests);
      PeersResumeKeeps(t, answers[0].result);
      PeersDriveKeeps(PeersResume(t, answers[0].result), answers[1..]);
    }
  }

  lemma PeersCallKeeps(s: State, r: P.Request, answers: seq<Reply>)
    requires Inv(s) && s.calls > 0 && s.attempted
    ensures Sized(s) && Kept(s, PeersCall(s, r, answers))
    decreases answers, 1
  {
    InvSized(s);
    PeersBeginKeeps(s, r);
    if s.peers.pc.Done? {
      PeersDriveKeeps(PeersBegin(s, r), answers);
    }
  }

  /** Entering a call, logging one backend call and calling out. */
  lemma EnteredKeeps(s: State, e: Event, requests: seq<Request>)
    requires Inv(s) && !IsClosed(s) && Plain(e)
    ensures Sized(s) && Kept(Enter(s), Inside(s, e, requests))
    decreases requests, 1
  {
    InvSized(s);
    EnterKeeps(s);
    LogKeeps(Enter(s), e);
    CallOutKeeps(Enter(s).Log(e), requests);
  }

  /** Leaving brings a call back to the nesting it was made in. */
  lemma LeaveNests(s: State, t: State, closing: seq<Request>)
    requires Inv(s) && Inv(t) && Nested(Enter(s), t)
    ensures Sized(t) && Kept(s, Leave(t, closing))
  {
    LeaveKeeps(t, closing);
  }

  lemma PrepareKeeps(s: State, r: Request)
    requires Inv(s) && r.Prepare?
    ensures Sized(s) && Kept(s, PrepareStep(s, r))
    decreases r, 0
  {
    InvSized(s);
    if !(s.stopped || s.isOpen || !r.arguments || !r.capable) {
      OpenKeeps(s);
      CallOutKeeps(Opening(s), r.open.requests);
      var t := CallOut(Opening(s), r.open.requests);
      PreparedKeeps(t, r.open.ok, BindRequest(r.binding), r.configured);
      LeaveNests(s, Prepared(t, r.open.ok, BindRequest(r.binding), r.configured), r.closing);
    }
  }

  lemma OpenKeeps(s: State)
    requires Inv(s) && !s.stopped
    ensures Kept(Enter(s), Opening(s))
  {
    NeverClosed(s.log);
    EverOpenedAfter(s.log, Open(s.calls + 1));
  }

  lemma PreparedKeeps(s: State, answered: bool, bind: P.Request, configured: bool)
    requires Inv(s) && s.calls > 0 && s.attempted && bind.Bind?
    ensures Sized(s) && Kept(s, Prepared(s, answered, bind, configured))
  {
    InvSized(s);
    if s.stopped {
    } else if !answered {
      StoppedKeeps(s);
    } else {
      BoundKeeps(s, bind, configured);
    }
  }

  lemma BoundKeeps(s: State, bind: P.Request, configured: bool)
    requires Inv(s) && s.calls > 0 && s.attempted && bind.Bind? && !s.stopped
    ensures Sized(s) && Kept(s, Prepared(s, true, bind, configured))
  {
    InvSized(s);
    LogKeeps(s, BindPeers(s.calls));
    PeersBeginKeeps(s.Log(BindPeers(s.calls)), bind);
    StoppedKeeps(PeersBegin(s.Log(BindPeers(s.calls)), bind));
  }

  lemma TurnOnKeeps(s: State, r: Request)
    requires Inv(s) && r.Enable?
    ensures Sized(s) && Kept(s, TurnOn(s, r))
    decreases r, 1
  {
    InvSized(s);
    if !(!s.isOpen || s.stopped || !r.ready || s.enabled) {
      TurnedOnKeeps(s, r);
    }
  }

  lemma TurnedOnKeeps(s: State, r: Request)
    requires Inv(s) && r.Enable? && s.isOpen && !s.stopped && r.ready && !s.enabled
    ensures Sized(s) && Kept(s, TurnOn(s, r))
    decreases r, 1, 1
  {
    EnteredKeeps(s, Activate(true, s.calls + 1), r.activate.requests);
    ActivatedKeeps(s, Inside(s, Activate(true, s.calls + 1), r.activate.requests), r);
  }

  /** `setEnabled(true)` after the backend has answered. */
  lemma ActivatedKeeps(s: State, t: State, r: Request)
    requires Inv(s) && s.isOpen && Inv(t) && Nested(Enter(s), t) && r.Enable?
    ensures Sized(t) && Kept(s, Activated(t, r))
    decreases r, 1, 0
  {
    InvSized(t);
    if t.stopped || !r.activate.ok {
      LeaveNests(s, t, r.closing);
    } else {
      PeersOnKeeps(t, r);
      LeaveNests(s, PeersOn(t, r), r.closing);
    }
  }

  lemma PeersOnKeeps(s: State, r: Request)
    requires Inv(s) && s.isOpen && !s.stopped && s.calls > 0 && r.Enable?
    ensures Sized(s) && Kept(s, PeersOn(s, r))
    decreases r, 0
  {
    InvSized(s);
    var on := P.Enable(true, r.hardware);
    LogKeeps(s, EnablePeers(PeersResult(s, on) == Success, s.calls));
    PeersBeginKeeps(s.Log(EnablePeers(PeersResult(s, on) == Success, s.calls)), on);
    var t := PeersBegin(s.Log(EnablePeers(PeersResult(s, on) == Success, s.calls)), on);
    LogKeeps(t, Activate(false, t.calls));
    CallOutKeeps(t.Log(Activate(false, t.calls)), r.undo.requests);
  }

  lemma TurnOffKeeps(s: State, r: Request)
    requires Inv(s) && r.Enable?
    ensures Sized(s) && Kept(s, TurnOff(s, r))
    decreases r, 1
  {
    InvSized(s);
    if !(!s.isOpen || s.stopped || !s.enabled) {
      EnterKeeps(s);
      DisablingKeeps(Enter(s));
      CallOutKeeps(Disabling(Enter(s)), r.activate.requests);
      var t := CallOut(Disabling(Enter(s)), r.activate.requests);
      if t.stopped {
        LeaveNests(s, t, r.closing);
      } else {
        LogKeeps(t, DisablePeers(t.calls));
        PeersCallKeeps(t.Log(DisablePeers(t.calls)), P.Enable(false, r.hardware), r.answers);
        LeaveNests(s, PeersCall(t.Log(DisablePeers(t.calls)), P.Enable(false, r.hardware), r.answers), r.closing);
      }
    }
  }

  lemma DisablingKeeps(s: State)
    requires Inv(s) && !IsClosed(s)
    ensures Sized(s) && Kept(s, Disabling(s))
  {
    InvSized(s);
    var t := s.(enabled := false);
    LogKeeps(t, RevokePeers(s.calls));
    PeersBeginKeeps(t.Log(RevokePeers(s.calls)), P.Revoke);
    LogKeeps(PeersBegin(t.Log(RevokePeers(s.calls)), P.Revoke), Activate(false, s.calls));
  }

  lemma ShutdownKeeps(s: State, r: Request)
    requires Inv(s) && r.Shutdown?
    ensures Sized(s) && Kept(s, Step(s, r))
  {
    InvSized(s);
    if !s.stopped {
      if s.calls > 0 {
        StoppedKeeps(s);
      } else {
        StoppedAtRest(s);
        FinishKeeps(Stopped(s), r.closing);
      }
    }
  }

  lemma StoppedAtRest(s: State)
    requires Inv(s) && !s.stopped && s.calls == 0
    ensures Sized(s) && Ending(Stopped(s))
  {
    InvSized(s);
    NeverClosed(s.log);
    EverOpenedAfter(s.log, RevokePeers(0));
    PP.BeginKeeps(s.peers.state, P.Revoke);
  }

  lemma PeerWorkKeeps(s: State, r: Request)
    requires Inv(s) && r.Peer?
    ensures Sized(s) && Kept(s, PeerStep(s, r))
    decreases r, 0
  {
    InvSized(s);
    if s.isOpen && !s.stopped {
      EnterKeeps(s);
      LeaveNests(s, Enter(s), r.closing);
      LogKeeps(Enter(s), PeerRequest(r.work, s.calls + 1));
      var e := Enter(s).Log(PeerRequest(r.work, s.calls + 1));
      PeersCallKeeps(e, WorkRequest(r.work), r.answers);
      LeaveNests(s, PeersCall(e, WorkRequest(r.work), r.answers), r.closing);
    }
  }

  lemma AppliedKeeps(s: State, r: Request)
    requires Inv(s) && (r.SetAddress? || r.Radio? || r.Control?) && s.isOpen && !s.stopped
    ensures Sized(s) && Kept(s, Applied(s, r))
    decreases r, 0
  {
    EnteredKeeps(s, Apply(WorkOf(r), s.calls + 1), r.apply.requests);
    LeaveNests(s, Inside(s, Apply(WorkOf(r), s.calls + 1), r.apply.requests), r.closing);
  }

  lemma ApplyStepKeeps(s: State, r: Request)
    requires Inv(s) && (r.SetAddress? || r.Radio? || r.Control?)
    ensures Sized(s) && Kept(s, Step(s, r))
    decreases r, 1
  {
    InvSized(s);
    if s.isOpen && !s.stopped {
      AppliedKeeps(s, r);
      EnterKeeps(s);
      LeaveNests(s, Enter(s), r.closing);
    }
  }

  lemma StepKeeps(s: State, r: Request)
    requires Inv(s)
    ensures Sized(s) && Kept(s, Step(s, r))
    decreases r, 2
  {
    InvSized(s);
    match r
    case Prepare(_, _, _, _, _, _) => PrepareKeeps(s, r);
    case Enable(value, _, _, _, _, _, _) =>
      TurnOnKeeps(s, r);
      TurnOffKeeps(s, r);
    case Shutdown(_) => ShutdownKeeps(s, r);
    case SetAddress(_, _, _) => ApplyStepKeeps(s, r);
    case Radio(_, _, _, _) => ApplyStepKeeps(s, r);
    case Control(_, _, _) => ApplyStepKeeps(s, r);
    case Peer(_, _, _, _, _) => PeerWorkKeeps(s, r);
    case Query(a) =>
      if s.attempted {
        AnsweredKeeps(s, a);
      }
  }

  lemma AnsweredKeeps(s: State, a: Address)
    requires Inv(s) && s.attempted
    ensures Sized(s) && Kept(s, Answered(s, a))
  {
    InvSized(s);
    var e := Asked(a, P.Authorized(s.peers.state, a));
    LogKeeps(s, e);
    PeersBeginKeeps(s.Log(e), P.Ask(a));
  }
}
