/** Traffic under the runtime: a peer is authorized only while the runtime is open, enabled and
    not stopped, and only after the peers were turned on, at every nesting of calls; and a peer
    that was left to the hardware is never met again. */
module RuntimeTraffic {
  import opened Common
  import opened Runtime
  import P = Peers
  import PL = PeersLeftovers
  import PP = PeersProof
  import PT = PeersTheorems
  import RP = RuntimeProof
  import RT = RuntimeTheorems

  // -------------------------------------------------------------------------
  // What the log says
  // -------------------------------------------------------------------------

  /** Turning the peers on is the last word on them. */
  predicate On(log: seq<Event>) {
    log != [] &&
    var e := log[|log| - 1];
    (e.EnablePeers? && e.accepted) || (!TurnsOff(e) && On(log[..|log| - 1]))
  }

  predicate TurnsOff(e: Event) {
    e.DisablePeers? || e.RevokePeers? || e.AbandonPeers?
  }

  /** Questions to the peers, and leaving them to the hardware, are not calls on the radio. */
  predicate Aside(e: Event) {
    e.Asked? || e.AbandonPeers?
  }

  /** The peers were revoked and no call on the radio has been made since. */
  predicate Owing(log: seq<Event>) {
    log != [] && (log[|log| - 1].RevokePeers? || (Aside(log[|log| - 1]) && Owing(log[..|log| - 1])))
  }

  /** Calls that take the radio away. */
  predicate Settles(e: Event) {
    (e.Activate? && !e.value) || e.Close?
  }

  /** A peer is found authorized only while the peers are on. */
  predicate Honest(log: seq<Event>) {
    forall k :: 0 <= k < |log| && log[k].Asked? && log[k].authorized ==> On(log[..k])
  }

  /** The first call on the radio after a revocation takes it away. */
  predicate Tidy(log: seq<Event>) {
    forall k :: 0 <= k < |log| && Owing(log[..k]) ==> Aside(log[k]) || Settles(log[k])
  }

  lemma AfterEvent(log: seq<Event>, e: Event)
    ensures On(log + [e]) == ((e.EnablePeers? && e.accepted) || (!TurnsOff(e) && On(log)))
    ensures Owing(log + [e]) == (e.RevokePeers? || (Aside(e) && Owing(log)))
    ensures Honest(log) && (e.Asked? && e.authorized ==> On(log)) ==> Honest(log + [e])
    ensures Tidy(log) && (Owing(log) ==> Aside(e) || Settles(e)) ==> Tidy(log + [e])
  {
    var more := log + [e];
    assert more[..|log|] == log;
    forall k | 0 <= k < |log|
      ensures more[..k] == log[..k]
    {
    }
  }

  /** Nothing was left to the hardware without a failure on record, unless the peers are not
      bound any more; and they stay bound until the runtime stops. */
  predicate Clean(s: State) {
    && (s.peers.state.bound ==> PL.Spotless(s.peers.state.log))
    && (!s.stopped ==> PL.Steadfast(s.peers))
    && (!s.stopped && !s.peers.state.bound ==>
          s.peers.pc.Done? && !s.isOpen && P.Orphans(s.peers.state.log) == {})
  }

  predicate Guarded(s: State) {
    && Clean(s)
    && (s.peers.state.active ==> s.isOpen && s.enabled && !s.stopped && On(s.log))
    && Honest(s.log) && Tidy(s.log) && (Owing(s.log) ==> s.stopped)
  }

  /** Logging a call that neither turns the peers on nor off. */
  predicate Neutral(e: Event) {
    !TurnsOff(e) && !e.Asked?
  }

  lemma LogGoes(s: State, e: Event)
    requires Guarded(s) && Neutral(e) && !s.stopped
    ensures Guarded(s.Log(e))
  {
    AfterEvent(s.log, e);
  }

  // -------------------------------------------------------------------------
  // The runtime
  // -------------------------------------------------------------------------

  /** What every step from `s` to `t` keeps: the guard, and that only stopping ends being open. */
  predicate Goes(s: State, t: State) {
    Guarded(t) && (s.isOpen || s.stopped ==> t.isOpen || t.stopped)
  }

  lemma AskFrame(s: State, r: P.Request)
    requires Sized(s)
    ensures var t := PeersBegin(s, r); t.peers.state == P.Begin(s.peers.state, r).state && t == s.(peers := t.peers)
  {
  }

  /** Requests that an owner which is not bound answers at once. */
  predicate Harmless(r: P.Request) {
    r.Revoke? || r.Ask?
  }

  lemma AskGoes(s: State, r: P.Request)
    requires Sized(s) && Guarded(s) && PL.Ordinary(r) && (Harmless(r) || s.peers.state.bound || s.stopped)
    ensures Goes(s, PeersBegin(s, r))
  {
    AskFrame(s, r);
    PL.BeginQuiets(s.peers.state, r);
    if r.Ask? {
      PP.QuietEvent(s.peers.state.log, P.Asked(r.address, P.Authorized(s.peers.state, r.address)));
    }
  }

  lemma FinishGoes(s: State)
    requires Sized(s) && Guarded(s) && !s.peers.pc.Done?
    ensures Goes(s, PeersFinish(s))
  {
    PL.DriveQuiets(s.peers);
  }

  lemma ResumeGoes(s: State, result: P.PeerResult)
    requires Sized(s) && Guarded(s) && !s.peers.pc.Done?
    ensures Goes(s, PeersResume(s, result))
  {
    PL.ResumeQuiets(s.peers.state, s.peers.pc, result);
  }

  lemma {:induction false} PeersDriveGoes(s: State, answers: seq<Reply>)
    requires Sized(s) && Guarded(s)
    ensures Goes(s, PeersDrive(s, answers))
    decreases answers, 0
  {
    if !s.peers.pc.Done? {
      if answers == [] {
        FinishGoes(s);
      } else {
        CallOutGoes(s, answers[0].requests);
        var t := CallOut(s, answers[0].requests);
        if !t.peers.pc.Done? {
          ResumeGoes(t, answers[0].result);
          PeersDriveGoes(PeersResume(t, answers[0].result), answers[1..]);
        }
      }
    }
  }

  lemma PeersCallGoes(s: State, r: P.Request, answers: seq<Reply>)
    requires Sized(s) && Guarded(s) && PL.Ordinary(r) && (s.peers.state.bound || s.stopped)
    ensures Goes(s, PeersCall(s, r, answers))
    decreases answers, 1
  {
    AskGoes(s, r);
    PeersDriveGoes(PeersBegin(s, r), answers);
  }

  lemma {:induction false} CallOutGoes(s: State, requests: seq<Request>)
    requires Sized(s) && Guarded(s)
    ensures Goes(s, CallOut(s, requests))
    decreases requests, 0
  {
    if requests != [] {
      StepGoes(s, requests[0]);
      CallOutGoes(Step(s, requests[0]), requests[1..]);
    }
  }

  lemma CloseGoes(s: State, closing: seq<Request>)
    requires Sized(s) && Guarded(s) && s.stopped
    ensures Goes(s, Finish(s, closing))
    decreases closing, 1
  {
    if s.attempted {
      ClosedGoes(s);
      CallOutGoes(Closed(s), closing);
    }
  }

  /** Abandoning the peers, then closing the backend. */
  lemma ClosedGoes(s: State)
    requires Sized(s) && Guarded(s) && s.stopped
    ensures Goes(s, Closed(s))
  {
    var e := AbandonPeers(s.calls, s.peers.state.Resting());
    AfterEvent(s.log, e);
    AbandonGoes(s.(attempted := false).Log(e));
    AfterEvent(s.log + [e], Close(s.calls));
  }

  /** Abandoned peers are no longer bound, or will be when the transaction ends. */
  lemma AbandonGoes(s: State)
    requires Sized(s) && Guarded(s) && s.stopped
    ensures Goes(s, PeersBegin(s, P.Abandon))
  {
    AskFrame(s, P.Abandon);
    PP.QuietEvent(s.peers.state.log, P.Deferred(P.Forget));
  }

  lemma LeaveGoes(s: State, closing: seq<Request>)
    requires Sized(s) && Guarded(s)
    ensures Goes(s, Leave(s, closing))
    decreases closing, 2
  {
    if s.stopped {
      CloseGoes(s.(calls := if s.calls > 0 then s.calls - 1 else 0), closing);
    }
  }

  /** Stopping revokes in the same step, whatever was active. */
  lemma StoppedGoes(s: State)
    requires Sized(s) && Guarded(s) && !s.stopped
    ensures Goes(s, Stopped(s)) && Stopped(s).stopped
  {
    AfterEvent(s.log, RevokePeers(s.calls));
  }

  lemma StopGoes(s: State, closing: seq<Request>)
    requires Sized(s) && Guarded(s)
    ensures Goes(s, Stop(s, closing))
    decreases closing, 2
  {
    if !s.stopped {
      StoppedGoes(s);
      CloseGoes(Stopped(s), closing);
    }
  }

  lemma InsideGoes(s: State, e: Event, requests: seq<Request>)
    requires Sized(s) && Guarded(s) && Neutral(e) && !s.stopped
    ensures Goes(s, Inside(s, e, requests))
    decreases requests, 1
  {
    LogGoes(Enter(s), e);
    CallOutGoes(Enter(s).Log(e), requests);
  }

  lemma AppliedGoes(s: State, r: Request)
    requires Sized(s) && Guarded(s) && (r.SetAddress? || r.Radio? || r.Control?) && !s.stopped
    ensures Goes(s, Applied(s, r))
    decreases r, 1
  {
    InsideGoes(s, Apply(WorkOf(r), s.calls + 1), r.apply.requests);
    LeaveGoes(Inside(s, Apply(WorkOf(r), s.calls + 1), r.apply.requests), r.closing);
  }

  lemma PreparedGoes(s: State, answered: bool, b: Binding, configured: bool)
    requires Sized(s) && Guarded(s)
    ensures Goes(s, Prepared(s, answered, BindRequest(b), configured))
  {
    if s.stopped {
    } else if !answered {
      StoppedGoes(s);
    } else {
      BoundGoes(s, b, configured);
    }
  }

  lemma BoundGoes(s: State, b: Binding, configured: bool)
    requires Sized(s) && Guarded(s) && !s.stopped
    ensures Goes(s, Prepared(s, true, BindRequest(b), configured))
  {
    LogGoes(s, BindPeers(s.calls));
    BindGoes(s.Log(BindPeers(s.calls)), b);
    AskFrame(s.Log(BindPeers(s.calls)), BindRequest(b));
    StoppedGoes(PeersBegin(s.Log(BindPeers(s.calls)), BindRequest(b)));
  }

  /** Peers are bound only while nothing was left to the hardware. */
  lemma BindGoes(s: State, b: Binding)
    requires Sized(s) && Guarded(s) && !s.stopped
    ensures Goes(s, PeersBegin(s, BindRequest(b)))
    ensures PeersResult(s, BindRequest(b)) == Success ==> PeersBegin(s, BindRequest(b)).peers.state.bound
  {
    AskFrame(s, BindRequest(b));
    PP.BoundEvent(s.peers.state.log);
  }

  lemma PrepareGoes(s: State, r: Request)
    requires Sized(s) && Guarded(s) && r.Prepare?
    ensures Goes(s, PrepareStep(s, r))
    decreases r, 1
  {
    if !(s.stopped || s.isOpen || !r.arguments || !r.capable) {
      OpeningGoes(s);
      CallOutGoes(Opening(s), r.open.requests);
      FinishedGoes(CallOut(Opening(s), r.open.requests), r);
    }
  }

  lemma OpeningGoes(s: State)
    requires Sized(s) && Guarded(s) && !s.stopped
    ensures Sized(Opening(s)) && Goes(s, Opening(s))
  {
    var t := Enter(s).(attempted := true);
    SameGuard(s, t);
    LogGoes(t, Open(s.calls + 1));
    assert Opening(s) == t.Log(Open(s.calls + 1));
  }

  lemma SameGuard(s: State, t: State)
    requires Guarded(s) && t == s.(calls := t.calls, attempted := t.attempted)
    ensures Guarded(t)
  {
    assert t.peers == s.peers && t.log == s.log && t.isOpen == s.isOpen && t.stopped == s.stopped;
  }

  lemma FinishedGoes(s: State, r: Request)
    requires Sized(s) && Guarded(s) && r.Prepare?
    ensures Goes(s, Leave(Prepared(s, r.open.ok, BindRequest(r.binding), r.configured), r.closing))
    decreases r, 0
  {
    PreparedGoes(s, r.open.ok, r.binding, r.configured);
    LeaveGoes(Prepared(s, r.open.ok, BindRequest(r.binding), r.configured), r.closing);
  }

  /** A refused enable changes nothing. */
  lemma RefusedEnable(s: State, r: P.Request)
    requires Sized(s) && r.Enable? && r.value && PeersResult(s, r) != Success
    ensures PeersBegin(s, r).peers.state == s.peers.state
  {
  }

  lemma PeersOnGoes(s: State, r: Request)
    requires Sized(s) && Guarded(s) && r.Enable? && !s.stopped && s.isOpen
    ensures Goes(s, PeersOn(s, r))
    decreases r, 0
  {
    var on := P.Enable(true, r.hardware);
    var accepted := PeersResult(s, on) == Success;
    var logged := s.Log(EnablePeers(accepted, s.calls));
    AfterEvent(s.log, EnablePeers(accepted, s.calls));
    AskFrame(logged, on);
    if !accepted {
      RefusedEnable(logged, on);
      LogGoes(PeersBegin(logged, on), Activate(false, s.calls));
      CallOutGoes(PeersBegin(logged, on).Log(Activate(false, s.calls)), r.undo.requests);
    }
  }

  lemma TurnOnGoes(s: State, r: Request)
    requires Sized(s) && Guarded(s) && r.Enable?
    ensures Goes(s, TurnOn(s, r))
    decreases r, 1, 1
  {
    if !(!s.isOpen || s.stopped || !r.ready || s.enabled) {
      InsideGoes(s, Activate(true, s.calls + 1), r.activate.requests);
      ActivatedGoes(Inside(s, Activate(true, s.calls + 1), r.activate.requests), r);
    }
  }

  lemma ActivatedGoes(s: State, r: Request)
    requires Sized(s) && Guarded(s) && r.Enable? && (s.isOpen || s.stopped)
    ensures Goes(s, Activated(s, r))
    decreases r, 1, 0
  {
    if s.stopped || !r.activate.ok {
      LeaveGoes(s, r.closing);
    } else {
      PeersOnGoes(s, r);
      LeaveGoes(PeersOn(s, r), r.closing);
    }
  }

  lemma DisablingGoes(s: State)
    requires Sized(s) && Guarded(s) && !s.stopped
    ensures Goes(s, Disabling(s))
  {
    AfterEvent(s.log, RevokePeers(s.calls));
    AfterEvent(s.log + [RevokePeers(s.calls)], Activate(false, s.calls));
  }

  lemma TurnOffGoes(s: State, r: Request)
    requires Sized(s) && Guarded(s) && r.Enable?
    ensures Goes(s, TurnOff(s, r))
    decreases r, 1
  {
    if !(!s.isOpen || s.stopped || !s.enabled) {
      DisablingGoes(Enter(s));
      CallOutGoes(Disabling(Enter(s)), r.activate.requests);
      var t := CallOut(Disabling(Enter(s)), r.activate.requests);
      if t.stopped {
        LeaveGoes(t, r.closing);
      } else {
        PeersOffGoes(t, r.hardware, r.answers);
        LeaveGoes(PeersCall(t.Log(DisablePeers(t.calls)), P.Enable(false, r.hardware), r.answers), r.closing);
      }
    }
  }

  /** Disabling the peers withdraws authorization at once, even when the rest waits. */
  lemma PeersOffGoes(s: State, hardware: nat, answers: seq<Reply>)
    requires Sized(s) && Guarded(s) && !s.stopped && s.isOpen
    ensures Goes(s, PeersCall(s.Log(DisablePeers(s.calls)), P.Enable(false, hardware), answers))
    decreases answers, 1
  {
    var e := s.Log(DisablePeers(s.calls));
    AfterEvent(s.log, DisablePeers(s.calls));
    AskFrame(e, P.Enable(false, hardware));
    PL.DisableQuiets(s.peers.state, hardware);
    PeersDriveGoes(PeersBegin(e, P.Enable(false, hardware)), answers);
  }

  lemma PeerGoes(s: State, r: Request)
    requires Sized(s) && Guarded(s) && r.Peer?
    ensures Goes(s, PeerStep(s, r))
    decreases r, 1
  {
    if !s.isOpen || s.stopped {
    } else if !r.configured || !s.enabled || !r.accepted {
      LeaveGoes(Enter(s), r.closing);
    } else {
      var t := Enter(s).Log(PeerRequest(r.work, s.calls + 1));
      LogGoes(Enter(s), PeerRequest(r.work, s.calls + 1));
      PeersCallGoes(t, WorkRequest(r.work), r.answers);
      LeaveGoes(PeersCall(t, WorkRequest(r.work), r.answers), r.closing);
    }
  }

  lemma ControlGoes(s: State, r: Request)
    requires Sized(s) && Guarded(s) && (r.SetAddress? || r.Radio? || r.Control?)
    ensures Goes(s, Step(s, r))
    decreases r, 2
  {
    if r.Control? && s.isOpen && !s.stopped && !r.configured {
      LeaveGoes(Enter(s), r.closing);
    } else if s.isOpen && !s.stopped {
      AppliedGoes(s, r);
    }
  }

  lemma StepGoes(s: State, r: Request)
    requires Sized(s) && Guarded(s)
    ensures Goes(s, Step(s, r))
    decreases r, 3
  {
    match r
    case Prepare(_, _, _, _, _, _) => PrepareGoes(s, r);
    case Enable(value, _, _, _, _, _, _) =>
      if value {
        TurnOnGoes(s, r);
      } else {
        TurnOffGoes(s, r);
      }
    case Shutdown(closing) => StopGoes(s, closing);
    case SetAddress(_, _, _) => ControlGoes(s, r);
    case Radio(_, _, _, _) => ControlGoes(s, r);
    case Control(_, _, _) => ControlGoes(s, r);
    case Peer(_, _, _, _, _) => PeerGoes(s, r);
    case Query(a) => QueryGoes(s, a);
  }

  /** An authorized answer is given by an active owner, so the peers are on. */
  lemma QueryGoes(s: State, a: Address)
    requires Sized(s) && Guarded(s)
    ensures Goes(s, Answered(s, a))
  {
    var e := Asked(a, P.Authorized(s.peers.state, a));
    AfterEvent(s.log, e);
    AskGoes(s.Log(e), P.Ask(a));
  }

  /** In every run, with any nesting of calls: each time the backend is told that a peer is
      authorized, turning the peers on was accepted and is the last thing that was done to
      them; and the first call on the radio after a revocation turns it off or closes it. */
  lemma TrafficNeedsAnEnabledRuntime(requests: seq<Request>, a: Address)
    ensures var s := Run(START, requests);
      && Honest(s.log) && Tidy(s.log)
      && (P.Authorized(s.peers.state, a) ==> s.isOpen && s.enabled && !s.stopped && On(s.log))
  {
    StartGuarded();
    CallOutGoes(START, requests);
  }

  lemma StartGuarded()
    ensures Guarded(START)
  {
  }

  /** In every run, whenever something was left to the hardware, a failure is on record or the
      peers are not bound; so a peer that is added was never left to the hardware. */
  lemma NoLeftoverIsAdded(requests: seq<Request>, operation: nat, a: Address, q: P.Query)
    ensures var s := Run(START, requests).peers.state;
      && (P.Orphans(s.log) != {} ==> P.Faulted(s.log) || !s.bound)
      && (P.Begin(s, P.Cache(operation, a, q)).pc.AddingForCache? ==> a !in P.Orphans(s.log))
  {
    StartGuarded();
    CallOutGoes(START, requests);
    RT.StartInv();
    RP.CallOutKeeps(START, requests);
    var s := Run(START, requests).peers.state;
    if P.Begin(s, P.Cache(operation, a, q)).pc.AddingForCache? {
      PT.AddTookFreeSlot(s, operation, a, q);
    }
  }
}
