/** The native control provider: it counts the calls in flight and keeps the backend open
    until the outermost one returns. The backend's peer owner is part of the state; every
    other answer of the backend, and everything that is asked during a call-out, is input. */
module Runtime {
  import opened Common
  import P = Peers

  /** One answer of the backend or the hardware, with the requests that were made of the
      runtime while the call-out was open. */
  datatype Reply = Reply(ok: bool, result: P.PeerResult, requests: seq<Request>)

  /** `closing` is what is asked while the backend closes, should this call close it. */
  datatype Request =
    | Prepare(arguments: bool, capable: bool, binding: Binding, configured: bool, open: Reply, closing: seq<Request>)
    | Enable(value: bool, ready: bool, hardware: nat, activate: Reply, answers: seq<Reply>, undo: Reply,
             closing: seq<Request>)
    | Shutdown(closing: seq<Request>)
    | SetAddress(valid: bool, apply: Reply, closing: seq<Request>)
    | Radio(what: RadioWork, guard: bool, apply: Reply, closing: seq<Request>)
    | Control(configured: bool, apply: Reply, closing: seq<Request>)
    | Peer(configured: bool, accepted: bool, work: PeerWork, answers: seq<Reply>, closing: seq<Request>)
    | Query(address: Address)

  datatype Binding = Binding(native: bool, address: Address, current: Option<Address>, hardware: nat)

  datatype PeerWork =
    | CachePeer(operation: nat, address: Address, query: P.Query)
    | RegisterTraffic(registration: P.Registration, query: P.Query)

  datatype RadioWork = Transmit | ReceiveData | ObserveAction | Timer

  /** What a backend call inside the call guard is for. */
  datatype Work = Addressing | Requesting | Carrying(what: RadioWork)

  /** A call on the backend, or a question to its peers, with the number of runtime calls in flight at that moment. */
  datatype Event =
    | Open(calls: nat)
    | BindPeers(calls: nat)
    | Activate(value: bool, calls: nat)
    | EnablePeers(accepted: bool, calls: nat)
    | DisablePeers(calls: nat)
    | RevokePeers(calls: nat)
    | Apply(purpose: Work, calls: nat)
    | PeerRequest(work: PeerWork, calls: nat)
    | Asked(address: Address, authorized: bool)
    | AbandonPeers(calls: nat, idle: bool)
    | Close(calls: nat)

  datatype State = State(
    calls: nat,
    attempted: bool,
    isOpen: bool,
    enabled: bool,
    stopped: bool,
    peers: P.Point,
    log: seq<Event>
  ) {
    function Log(e: Event): State {
      this.(log := log + [e])
    }
  }

  const START := State(0, false, false, false, false, P.Point(P.START, P.Done(Success)), [])

  predicate Sized(s: State) {
    |s.peers.state.entries| == P.MAXIMUM_PEERS && P.InTable(s.peers.pc)
  }

  // -------------------------------------------------------------------------
  // The peer owner under the runtime
  // -------------------------------------------------------------------------

  /** Starts a peer request. While a transaction is open the request returns at once. */
  function PeersBegin(s: State, r: P.Request): (t: State)
    requires Sized(s)
    ensures Sized(t)
  {
    var p := P.Begin(s.peers.state, r);
    if s.peers.pc.Done? then s.(peers := p) else s.(peers := P.Point(p.state, s.peers.pc))
  }

  /** What the request started by `PeersBegin` returned, when it returned at once. */
  function PeersResult(s: State, r: P.Request): IOReturn
    requires Sized(s)
  {
    var p := P.Begin(s.peers.state, r);
    if p.pc.Done? then p.pc.result else Busy
  }

  function PeersResume(s: State, result: P.PeerResult): (t: State)
    requires Sized(s) && !s.peers.pc.Done?
    ensures Sized(t)
  {
    P.ResumeAdvances(s.peers.state, s.peers.pc, result);
    s.(peers := P.Resume(s.peers.state, s.peers.pc, result))
  }

  /** Finishes a peer transaction whose remaining call-outs are answered without re-entry. */
  function PeersFinish(s: State): (t: State)
    requires Sized(s)
    ensures Sized(t) && t.peers.pc.Done?
  {
    s.(peers := P.Drive(s.peers, []))
  }

  /** Carries a peer transaction through, running the runtime's own requests during its call-outs. */
  function PeersDrive(s: State, answers: seq<Reply>): (t: State)
    requires Sized(s)
    ensures Sized(t)
    decreases answers, 0
  {
    if s.peers.pc.Done? then s
    else if answers == [] then PeersFinish(s)
    else
      var t := CallOut(s, answers[0].requests);
      if t.peers.pc.Done? then t
      else PeersDrive(PeersResume(t, answers[0].result), answers[1..])
  }

  /** A peer request made at rest is carried through; otherwise it has returned already. */
  function PeersCall(s: State, r: P.Request, answers: seq<Reply>): (t: State)
    requires Sized(s)
    ensures Sized(t)
    decreases answers, 1
  {
    if s.peers.pc.Done? then PeersDrive(PeersBegin(s, r), answers) else PeersBegin(s, r)
  }

  // -------------------------------------------------------------------------
  // Call-outs and the call guard
  // -------------------------------------------------------------------------

  function CallOut(s: State, requests: seq<Request>): (t: State)
    requires Sized(s)
    ensures Sized(t)
    decreases requests, 0
  {
    if requests == [] then s else CallOut(Step(s, requests[0]), requests[1..])
  }

  function Enter(s: State): State {
    s.(calls := s.calls + 1)
  }

  /** The call guard's destructor. */
  function Leave(s: State, closing: seq<Request>): (t: State)
    requires Sized(s)
    ensures Sized(t)
    decreases closing, 2
  {
    var t := s.(calls := if s.calls > 0 then s.calls - 1 else 0);
    if t.calls == 0 && t.stopped then Finish(t, closing) else t
  }

  /** `finishShutdown`: abandons the peers, then closes the backend. */
  function Finish(s: State, closing: seq<Request>): (t: State)
    requires Sized(s)
    ensures Sized(t)
    decreases closing, 1
  {
    if s.attempted then CallOut(Closed(s), closing) else s
  }

  function Closed(s: State): (t: State)
    requires Sized(s)
    ensures Sized(t)
  {
    var abandoning := s.(attempted := false).Log(AbandonPeers(s.calls, s.peers.state.Resting()));
    PeersBegin(abandoning, P.Abandon).Log(Close(s.calls))
  }

  /** Stops everything at once; the backend closes here only when no call is in flight. */
  function Stop(s: State, closing: seq<Request>): (t: State)
    requires Sized(s)
    ensures Sized(t)
    decreases closing, 2
  {
    if s.stopped then s
    else
      var t := Stopped(s);
      if t.calls == 0 then Finish(t, closing) else t
  }

  function Stopped(s: State): (t: State)
    requires Sized(s)
    ensures Sized(t)
  {
    PeersBegin(s.(stopped := true, enabled := false, isOpen := false).Log(RevokePeers(s.calls)), P.Revoke)
  }

  // -------------------------------------------------------------------------
  // Operations
  // -------------------------------------------------------------------------

  function Step(s: State, r: Request): (t: State)
    requires Sized(s)
    ensures Sized(t)
    decreases r, 2
  {
    match r
    case Prepare(_, _, _, _, _, _) => PrepareStep(s, r)
    case Enable(value, _, _, _, _, _, _) => if value then TurnOn(s, r) else TurnOff(s, r)
    case Shutdown(closing) => Stop(s, closing)
    case SetAddress(valid, apply, closing) =>
      if !valid || !s.isOpen || s.stopped || s.enabled then s else Applied(s, r)
    case Radio(what, guard, apply, closing) =>
      if !s.isOpen || !s.enabled || s.stopped || !guard then s else Applied(s, r)
    case Control(configured, apply, closing) =>
      if !s.isOpen || s.stopped then s
      else if !configured then Leave(Enter(s), closing)
      else Applied(s, r)
    case Peer(_, _, _, _, _) => PeerStep(s, r)
    case Query(a) => if s.attempted then Answered(s, a) else s
  }

  /** The backend asks whether a peer is authorized, from its opening until it is closed. */
  function Answered(s: State, a: Address): (t: State)
    requires Sized(s)
    ensures Sized(t)
  {
    PeersBegin(s.Log(Asked(a, P.Authorized(s.peers.state, a))), P.Ask(a))
  }

  /** Entering a call and making one backend call in it. */
  function Inside(s: State, e: Event, requests: seq<Request>): (t: State)
    requires Sized(s)
    ensures Sized(t)
    decreases requests, 1
  {
    CallOut(Enter(s).Log(e), requests)
  }

  function WorkOf(r: Request): Work
    requires r.SetAddress? || r.Radio? || r.Control?
  {
    if r.SetAddress? then Addressing else if r.Radio? then Carrying(r.what) else Requesting
  }

  /** One backend call inside the call guard. */
  function Applied(s: State, r: Request): (t: State)
    requires Sized(s) && (r.SetAddress? || r.Radio? || r.Control?)
    ensures Sized(t)
    decreases r, 1
  {
    Leave(Inside(s, Apply(WorkOf(r), s.calls + 1), r.apply.requests), r.closing)
  }

  function PrepareStep(s: State, r: Request): (t: State)
    requires Sized(s) && r.Prepare?
    ensures Sized(t)
    decreases r, 1
  {
    if s.stopped || s.isOpen || !r.arguments || !r.capable then s
    else
      var t := CallOut(Opening(s), r.open.requests);
      Leave(Prepared(t, r.open.ok, BindRequest(r.binding), r.configured), r.closing)
  }

  function Opening(s: State): State {
    Enter(s).(attempted := true).Log(Open(s.calls + 1))
  }

  function TurnOn(s: State, r: Request): (t: State)
    requires Sized(s) && r.Enable?
    ensures Sized(t)
    decreases r, 1
  {
    if !s.isOpen || s.stopped || !r.ready || s.enabled then s
    else Activated(Inside(s, Activate(true, s.calls + 1), r.activate.requests), r)
  }

  /** `setEnabled(true)` after the backend has answered `activate`. */
  function Activated(s: State, r: Request): (t: State)
    requires Sized(s) && r.Enable?
    ensures Sized(t)
    decreases r, 1, 0
  {
    Leave(if s.stopped || !r.activate.ok then s else PeersOn(s, r), r.closing)
  }

  /** Enabling the peers after the radio; a refusal turns the radio off again. */
  function PeersOn(s: State, r: Request): (t: State)
    requires Sized(s) && r.Enable?
    ensures Sized(t)
    decreases r, 0
  {
    var on := P.Enable(true, r.hardware);
    var accepted := PeersResult(s, on) == Success;
    var t := PeersBegin(s.Log(EnablePeers(accepted, s.calls)), on);
    if !accepted then CallOut(t.Log(Activate(false, t.calls)), r.undo.requests)
    else t.(enabled := !t.stopped)
  }

  function TurnOff(s: State, r: Request): (t: State)
    requires Sized(s) && r.Enable?
    ensures Sized(t)
    decreases r, 1
  {
    if !s.isOpen || s.stopped || !s.enabled then s
    else
      var t := CallOut(Disabling(Enter(s)), r.activate.requests);
      var e := t.Log(DisablePeers(t.calls));
      Leave(if t.stopped then t else PeersCall(e, P.Enable(false, r.hardware), r.answers), r.closing)
  }

  function PeerStep(s: State, r: Request): (t: State)
    requires Sized(s) && r.Peer?
    ensures Sized(t)
    decreases r, 1
  {
    if !s.isOpen || s.stopped then s
    else if !r.configured || !s.enabled || !r.accepted then Leave(Enter(s), r.closing)
    else Leave(PeersCall(Enter(s).Log(PeerRequest(r.work, s.calls + 1)), WorkRequest(r.work), r.answers), r.closing)
  }

  function Disabling(s: State): (t: State)
    requires Sized(s)
    ensures Sized(t)
  {
    PeersBegin(s.(enabled := false).Log(RevokePeers(s.calls)), P.Revoke).Log(Activate(false, s.calls))
  }

  /** `prepare` after the backend has answered `open`. */
  function Prepared(s: State, answered: bool, bind: P.Request, configured: bool): (t: State)
    requires Sized(s)
    ensures Sized(t)
  {
    if !answered then StopInside(s)
    else if s.stopped then s
    else
      var bound := PeersResult(s, bind) == Success;
      var t := PeersBegin(s.Log(BindPeers(s.calls)), bind);
      if !bound || !configured then StopInside(t)
      else t.(isOpen := true)
  }

  function BindRequest(b: Binding): P.Request {
    P.Bind(b.native, b.address, b.current, b.hardware)
  }

  function WorkRequest(w: PeerWork): P.Request {
    match w
    case CachePeer(operation, a, q) => P.Cache(operation, a, q)
    case RegisterTraffic(d, q) => P.Traffic(d, q)
  }

  /** A shutdown from inside a call: the call guard finishes it. */
  function StopInside(s: State): (t: State)
    requires Sized(s)
    ensures Sized(t)
  {
    if s.stopped then s else Stopped(s)
  }

  function Run(s: State, requests: seq<Request>): (t: State)
    requires Sized(s)
    ensures Sized(t)
  {
    CallOut(s, requests)
  }
}
