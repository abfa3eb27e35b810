/** The native AWDL backend: accepted settings, a fault that is never cleared, a peer owner, a
    bounded queue of frames drained inside radio windows, and one interface timer shared by the
    window scheduler and the transmit pump. The scheduler's window events and the peer owner's
    call-outs reach the native family, which may call any operation before they return. */
module Backend {
  import opened Common
  import opened AwdlSettings
  import P = Peers

  const CAPACITY := 64
  const BUDGET := 8
  const LIFETIME := 3_000_000
  const RETRY := 100_000
  const COUNTERS := 0x1_0000

  // -------------------------------------------------------------------------
  // What is seen from outside
  // -------------------------------------------------------------------------

  datatype Frame = Frame(wellFormed: bool, target: Address, source: Address, body: Bytes)

  predicate Group(a: Address) {
    (a / 0x100_0000_0000) % 2 == 1
  }

  datatype Slot = Slot(frame: Frame, queued: nat)

  /** One turn of the transmit loop: the time, the channel on which the election state expects
      the peer, and the answers of scheduler, encoder and radio. */
  datatype Turn = Turn(now: nat, expected: Option<nat>, permitted: bool, encodes: bool, accepted: bool)

  /** What the peer owner's log says about a peer at some moment. */
  datatype Standing = Standing(latest: Option<P.Event>, faulted: bool)

  /** A call on the backend. */
  datatype Call = Opening | Enabling | Disabling | Revoking | Closing | Firing | Working

  /** `Called` notes whether the call was made inside another one. `Silenced`: a disabling gives
      up traffic. `Stranded`: an activation inside a window event failed and leaves the deadline
      of its retry behind. `Enabled`: an activation that does not touch the timer succeeded,
      inside a window event or not. `TimerRenewed`: a launch or a settings request set the
      timer, or the timer went off. */
  datatype Event =
    | Called(call: Call, nested: bool)
    | Enqueued(slot: Slot)
    | Accepted(slot: Slot, turn: Turn, channel: nat, counter: nat, standing: Standing)
    | Expired(slot: Slot, now: nat)
    | Unencodable(slot: Slot)
    | Cleared(slots: seq<Slot>)
    | Named(mac: Address)
    | Stranded
    | Silenced
    | Enabled(during: bool)
    | TimerRenewed
    | ActionSent
    | Faulted
    | Reported(settings: Settings)
    | Configured
    | Closed

  predicate Fresh(slot: Slot, now: nat) {
    slot.queued <= now && now - slot.queued <= LIFETIME
  }

  /** The hardware added the peer, has not been told to remove it, and nothing failed. */
  predicate InHardware(standing: Standing, a: Address) {
    standing == Standing(Some(P.Ended(a, true, P.Ok)), false)
  }

  /** The peer is not expected on another channel. */
  predicate OnChannel(turn: Turn, channel: nat) {
    turn.expected.Some? ==> turn.expected.value == channel
  }

  /** The frame could go out on `channel` at that moment. */
  predicate MayGo(slot: Slot, turn: Turn, channel: nat, standing: Standing) {
    && Fresh(slot, turn.now)
    && (Group(slot.frame.target) || (InHardware(standing, slot.frame.target) && OnChannel(turn, channel)))
  }

  /** Frames as the log tells them: what entered the queue and what left it, in order.
      `lawful`: every accepted frame could be sent and carried the next counter, and only stale
      frames expired. */
  datatype Traffic = Traffic(entered: seq<Slot>, left: seq<Slot>, counter: nat, lawful: bool)

  function NoteTraffic(b: Traffic, e: Event): Traffic {
    match e
    case Enqueued(slot) => b.(entered := b.entered + [slot])
    case Accepted(slot, turn, channel, counter, standing) =>
      b.(left := b.left + [slot], counter := (b.counter + 1) % COUNTERS,
         lawful := b.lawful && MayGo(slot, turn, channel, standing) && counter == b.counter)
    case Expired(slot, now) => b.(left := b.left + [slot], lawful := b.lawful && !Fresh(slot, now))
    case Unencodable(slot) => b.(left := b.left + [slot])
    case Cleared(slots) => b.(left := b.left + slots)
    case Named(_) => b.(counter := 0)
    case _ => b
  }

  function TrafficOf(log: seq<Event>): Traffic {
    if log == [] then Traffic([], [], 0, true) else NoteTraffic(TrafficOf(log[..|log| - 1]), log[|log| - 1])
  }

  /** `quiet`: after a fault nothing was transmitted and no settings were reported. `sound`:
      the settings reported while open have the presence that open installed. */
  datatype Health = Health(faulted: bool, quiet: bool, isOpen: bool, sound: bool)

  function NoteHealth(b: Health, e: Event): Health {
    match e
    case Faulted => b.(faulted := true)
    case Accepted(_, _, _, _, _) => b.(quiet := b.quiet && !b.faulted)
    case ActionSent => b.(quiet := b.quiet && !b.faulted)
    case Reported(settings) => b.(quiet := b.quiet && !b.faulted, sound := b.sound && (b.isOpen ==> Settled(settings)))
    case Configured => b.(isOpen := true)
    case Closed => b.(isOpen := false)
    case _ => b
  }

  function HealthOf(log: seq<Event>): Health {
    if log == [] then Health(false, true, false, true) else NoteHealth(HealthOf(log[..|log| - 1]), log[|log| - 1])
  }

  /** How the backend was used. `orderly`: the first call after a revocation disables or
      closes; the timer fires and the backend is closed only outside any other call, and
      nothing is called while it closes. `owing`: the call after a revocation is still due.
      `lapsed`: an activation inside the window event of a disabling has left a deadline, for
      which the stop in progress cancels the timer, and nothing has cleared the deadline or
      renewed the timer since. `address`: the last name of the interface. */
  datatype Conduct = Conduct(orderly: bool, owing: bool, closing: bool, lapsed: bool, address: Address)

  /** The call is in order after what came before. */
  predicate InOrder(b: Conduct, call: Call, nested: bool) {
    !b.closing && (b.owing ==> call.Disabling? || call.Closing?) && (call.Closing? || call.Firing? ==> !nested)
  }

  function NoteConduct(b: Conduct, e: Event): Conduct {
    match e
    case Called(call, nested) =>
      b.(orderly := b.orderly && InOrder(b, call, nested), owing := call.Revoking?, closing := call.Closing?,
         lapsed := b.lapsed && !call.Revoking? && !call.Closing?)
    case Named(mac) => b.(address := mac)
    case Stranded => b.(lapsed := true)
    case Silenced => b.(lapsed := false)
    case Enabled(during) => b.(lapsed := b.lapsed && !during)
    case TimerRenewed => b.(lapsed := false)
    case Closed => b.(closing := false, lapsed := false)
    case _ => b
  }

  function ConductOf(log: seq<Event>): Conduct {
    if log == [] then Conduct(true, false, false, false, ZERO_ADDRESS)
    else NoteConduct(ConductOf(log[..|log| - 1]), log[|log| - 1])
  }

  // -------------------------------------------------------------------------
  // State
  // -------------------------------------------------------------------------

  /** `Unknown`: the interface refused the last request to arm it. */
  datatype Timer = Idle | Armed(deadline: nat) | Unknown

  /** The two deadlines (0 is none) and the interface timer. */
  datatype Timers = Timers(window: nat, pump: nat, timer: Timer)

  /** `Starting` and `Ending` a window are the phases in which its event is delivered. */
  datatype Phase = Stopped | Waiting | Reserved | Starting | Open | Ending | Failed

  /** The window scheduler: `leased` while it owns the radio, `reset` once a window could not
      be ended properly. */
  datatype Scheduler = Scheduler(phase: Phase, stopping: bool, leased: bool, reset: bool)

  type PeerOwner = p: P.Point | |p.state.entries| == P.MAXIMUM_PEERS && P.InTable(p.pc)
    witness P.Point(P.START, P.Done(Success))

  /** What the election engine was told; its state is a function of this. */
  datatype ElectionCall = Init(mac: Address) | Adopt(settings: Settings)

  datatype Config = Config(settings: Settings, mac: Address, election: seq<ElectionCall>)

  datatype State = State(
    domain: set<nat>,
    owns: bool,
    attached: bool,
    active: bool,
    fault: bool,
    servicing: bool,
    radio: Scheduler,
    config: Config,
    timers: Timers,
    peers: PeerOwner,
    data: seq<Slot>,
    counter: nat,
    log: seq<Event>
  ) {
    function Log(e: Event): (t: State)
      ensures t == this.(log := t.log)
      ensures TrafficOf(t.log) == NoteTraffic(TrafficOf(log), e) && HealthOf(t.log) == NoteHealth(HealthOf(log), e)
      ensures ConductOf(t.log) == NoteConduct(ConductOf(log), e)
    {
      assert (log + [e])[..|log|] == log;
      this.(log := log + [e])
    }
  }

  function Start(domain: set<nat>): State {
    State(domain, false, false, false, false, false, Scheduler(Stopped, false, false, false),
          Config(BLANK, ZERO_ADDRESS, []), Timers(0, 0, Idle), P.Point(P.START, P.Done(Success)), [], 0, [])
  }

  // -------------------------------------------------------------------------
  // Surroundings
  // -------------------------------------------------------------------------

  /** A window event: whether it was handed off, and what the native family called meanwhile. */
  datatype Handoff = Handoff(taken: bool, ops: seq<Op>)

  datatype Arming = Arming(deadline: nat, armed: bool)

  /** The answers while the scheduler gives the radio back. */
  datatype Homing = Homing(cancelled: bool, restored: bool, next: Arming)

  /** The answers while the scheduler stops. */
  datatype Halt = Halt(cancelled: bool, end: Handoff, home: Homing)

  /** The answers while a window opens. */
  datatype Entry = Entry(opens: bool, start: Handoff, until: Arming, end: Handoff, home: Homing, halt: Halt)

  /** What the scheduler finds with the radio reserved. */
  datatype Arrival = GiveUp(home: Homing) | Wait(until: Arming, halt: Halt) | Enter(entry: Entry)

  datatype Booking = Rejected(cancelled: bool, again: Arming, halt: Halt) | Leased(arrival: Arrival)

  /** What the scheduler plans while waiting. */
  datatype Plan = Later(at: Arming, halt: Halt) | Book(expiry: Arming, booking: Booking, halt: Halt)

  /** The answers during one service of the scheduler. `stays`: the open window goes on. */
  datatype Service = Service(ready: bool, stays: Option<Arming>, end: Handoff, home: Homing, arrival: Arrival,
                             plan: Plan, halt: Halt)

  datatype Launch = Launch(prepared: bool, startable: bool, now: nat, deadline: nat, armed: bool)

  datatype ApplyEnv = ApplyEnv(stop: Halt, launch: Launch, now: nat, armed: bool)

  datatype ActivateEnv = ActivateEnv(ready: bool, received: bool, stop: Halt, launch: Launch, armed: bool)

  datatype Action = Action(due: bool, needsActive: bool, permitted: bool, built: bool)

  datatype FireEnv = FireEnv(launch: Launch, service: Service, channel: nat, end: nat, actions: seq<Action>,
                             turns: seq<Turn>, done: nat, retry: nat, armed: bool)

  /** One answer to the peer owner, with what was called meanwhile. */
  datatype PeerReply = PeerReply(result: P.PeerResult, ops: seq<Op>)

  datatype Op =
    | OpenBackend(mac: Address, native: bool, added: bool, inited: bool)
    | Activate(on: bool, activation: ActivateEnv)
    | Revoke
    | Close(stop: Halt, quiesced: bool)
    | Request(version: nat, edit: Edit, application: ApplyEnv)
    | SetAddress(mac: Address, quiesced: bool, added: bool, inited: bool)
    | Transmit(frame: Frame, now: nat, armed: bool)
    | Fire(firing: FireEnv)
    | Report
    | PeerCall(request: P.Request, replies: seq<PeerReply>)

  // -------------------------------------------------------------------------
  // The timer
  // -------------------------------------------------------------------------

  /** The earlier of the two deadlines that are set. */
  function Wanted(t: Timers): Timer {
    if t.pump != 0 && (t.window == 0 || t.pump < t.window) then Armed(t.pump)
    else if t.window != 0 then Armed(t.window)
    else Idle
  }

  predicate RearmOk(s: State, armed: bool) {
    s.attached && (s.active && Wanted(s.timers).Armed? ==> armed)
  }

  function Rearm(s: State, armed: bool): (t: State)
    ensures t == s.(timers := t.timers)
  {
    if !s.attached then s else s.(timers := SetTimer(s.timers, s.active, armed))
  }

  function SetTimer(t: Timers, active: bool, armed: bool): Timers {
    var timer := if !active then Idle else if Wanted(t).Armed? && !armed then Unknown else Wanted(t);
    t.(timer := timer)
  }

  function SetWindow(s: State, deadline: nat): State {
    s.(timers := s.timers.(window := deadline))
  }

  function SetPump(s: State, deadline: nat): State {
    s.(timers := s.timers.(pump := deadline))
  }

  // -------------------------------------------------------------------------
  // The scheduler
  // -------------------------------------------------------------------------

  function SetPhase(s: State, phase: Phase): State {
    s.(radio := s.radio.(phase := phase))
  }

  /** A window event is being delivered. */
  predicate Handing(s: State) {
    s.radio.phase.Starting? || s.radio.phase.Ending?
  }

  function Arm(s: State, a: Arming): (t: State)
    ensures t == s.(timers := t.timers)
  {
    Rearm(SetWindow(s, a.deadline), a.armed)
  }

  predicate ArmOk(s: State, a: Arming) {
    RearmOk(SetWindow(s, a.deadline), a.armed)
  }

  function Cancel(s: State, armed: bool): (t: State)
    ensures t == s.(timers := t.timers)
  {
    Rearm(SetWindow(s, 0), armed)
  }

  /** Ends an open window; its event may be answered by any calls. */
  function EndWindow(s: State, h: Handoff): State
    decreases h, 0
  {
    if s.radio.phase.Open? then Ended(Run(SetPhase(s, Ending), h.ops), h.taken) else s
  }

  function Ended(s: State, taken: bool): State {
    s.(radio := s.radio.(phase := Reserved, reset := s.radio.reset || !taken))
  }

  /** Gives the radio back and, unless the scheduler is stopping, waits for the next window. */
  function ReturnHome(s: State, h: Homing): (t: State)
    ensures t == s.(timers := t.timers, radio := t.radio)
  {
    var t := Cancel(s, h.cancelled);
    if t.radio.leased && !h.restored then SetPhase(t, Failed)
    else AtHome(t.(radio := t.radio.(leased := false)), h.next)
  }

  function AtHome(s: State, next: Arming): (t: State)
    ensures t == s.(timers := t.timers, radio := t.radio)
  {
    if s.radio.reset then SetPhase(s, Failed)
    else if s.radio.stopping then SetPhase(s, Stopped)
    else if ArmOk(s, next) then SetPhase(Arm(s, next), Waiting)
    else Arm(s, next).(radio := s.radio.(phase := Stopped, stopping := true))
  }

  predicate HomeOk(s: State, h: Homing) {
    && (s.radio.leased ==> h.restored) && !s.radio.reset
    && (s.radio.stopping || ArmOk(Cancel(s, h.cancelled), h.next))
  }

  function Stopping(s: State, armed: bool): (t: State)
    ensures t == s.(timers := t.timers, radio := s.radio.(stopping := true))
  {
    Cancel(s.(radio := s.radio.(stopping := true)), armed)
  }

  function StopScheduler(s: State, e: Halt): State
    decreases e, 1
  {
    Halted(Stopping(s, e.cancelled), e)
  }

  /** Stopping after the timer was cancelled. While a window event is being delivered the
      dispatch in progress has to finish. */
  function Halted(s: State, e: Halt): State
    decreases e, 0
  {
    if Handing(s) || s.radio.phase.Stopped? then s else ReturnHome(EndWindow(s, e.end), e.home)
  }

  predicate StopOk(s: State, e: Halt)
    decreases e, 1
  {
    var t := Stopping(s, e.cancelled);
    !Handing(t) && (t.radio.phase.Stopped? || HomeOk(EndWindow(t, e.end), e.home))
  }

  /** Waits until a deadline, or stops if the timer cannot be armed for it. */
  function Deferred(s: State, a: Arming, halt: Halt): State
    decreases halt, 2
  {
    if ArmOk(s, a) then Arm(s, a) else StopScheduler(Arm(s, a), halt)
  }

  function OpenWindow(s: State, e: Entry): State
    decreases e, 1
  {
    if !e.opens || s.fault then ReturnHome(s, e.home) else Entered(Run(SetPhase(s, Starting), e.start.ops), e)
  }

  function Entered(s: State, e: Entry): State
    decreases e, 0
  {
    if !e.start.taken then ReturnHome(SetPhase(s, Reserved), e.home)
    else if s.radio.stopping then ReturnHome(EndWindow(SetPhase(s, Open), e.end), e.home)
    else Deferred(SetPhase(s, Open), e.until, e.halt)
  }

  function Arrive(s: State, a: Arrival): State
    decreases a, 0
  {
    match a
    case GiveUp(home) => ReturnHome(s, home)
    case Wait(until, halt) => Deferred(s, until, halt)
    case Enter(entry) => OpenWindow(s, entry)
  }

  function Booked(s: State, b: Booking): State
    decreases b, 0
  {
    match b
    case Rejected(cancelled, again, halt) => Deferred(Cancel(s, cancelled), again, halt)
    case Leased(arrival) => Arrive(s.(radio := s.radio.(phase := Reserved, leased := true)), arrival)
  }

  function Planned(s: State, p: Plan): State
    decreases p, 0
  {
    match p
    case Later(at, halt) => Deferred(s, at, halt)
    case Book(expiry, booking, halt) =>
      if ArmOk(s, expiry) then Booked(Arm(s, expiry), booking) else StopScheduler(Arm(s, expiry), halt)
  }

  /** One service of the scheduler. */
  function Serve(s: State, e: Service): State
    decreases e, 1
  {
    if Handing(s) || s.radio.phase.Stopped? || s.radio.phase.Failed? then s
    else if s.radio.stopping || !e.ready || s.fault then StopScheduler(s, e.halt)
    else if s.radio.phase.Waiting? then Planned(s, e.plan)
    else if s.radio.phase.Reserved? then Arrive(s, e.arrival)
    else if e.stays.Some? then Deferred(s, e.stays.value, e.halt)
    else WindowOver(ReturnHome(EndWindow(s, e.end), e.home), e.plan)
  }

  /** After an expired window the scheduler plans the next one at once. */
  function WindowOver(s: State, p: Plan): State
    decreases p, 1
  {
    if s.radio.phase.Waiting? then Planned(s, p) else s
  }

  /** Where the deadline of a start is written. */
  function Launching(s: State, l: Launch): State {
    if l.prepared then SetWindow(s.(radio := s.radio.(phase := Waiting, stopping := false)), l.deadline + 1)
    else SetPump(s, l.now + RETRY)
  }

  predicate CanStart(s: State, l: Launch) {
    s.radio.phase.Stopped? && l.startable && !s.fault
  }

  predicate LaunchOk(s: State, l: Launch) {
    (l.prepared ==> CanStart(s, l)) && RearmOk(Launching(s, l), l.armed)
  }

  /** Starts the scheduler, or retries later while the radio is not authorized. */
  function LaunchRadio(s: State, l: Launch): (t: State)
    ensures t == s.(timers := t.timers, radio := t.radio)
  {
    if l.prepared && !CanStart(s, l) then s
    else if !l.prepared || LaunchOk(s, l) then Rearm(Launching(s, l), l.armed)
    else SetPhase(Rearm(Launching(s, l), l.armed), Stopped)
  }

  predicate Launches(s: State, l: Launch) {
    !l.prepared || CanStart(s, l)
  }

  /** A launch by an activation or a settings request. */
  function Light(s: State, l: Launch): State {
    if Launches(s, l) then LaunchRadio(s, l).Log(TimerRenewed) else s
  }

  // -------------------------------------------------------------------------
  // The peer owner
  // -------------------------------------------------------------------------

  function SetPeers(s: State, p: PeerOwner): State {
    s.(peers := p)
  }

  /** Starts a peer request. While a transaction is open the request returns at once. */
  function PeersBegin(s: State, r: P.Request): State {
    var p := P.Begin(s.peers.state, r);
    SetPeers(s, if s.peers.pc.Done? then p else P.Point(p.state, s.peers.pc))
  }

  function PeersResume(s: State, result: P.PeerResult): State
    requires !s.peers.pc.Done?
  {
    P.ResumeAdvances(s.peers.state, s.peers.pc, result);
    SetPeers(s, P.Resume(s.peers.state, s.peers.pc, result))
  }

  /** Carries a peer transaction through; after the last reply nothing is called meanwhile. */
  function PeersDrive(s: State, replies: seq<PeerReply>): State
    decreases replies, 0
  {
    if s.peers.pc.Done? then s
    else if replies == [] then SetPeers(s, P.Drive(s.peers, []))
    else
      var t := Run(s, replies[0].ops);
      if t.peers.pc.Done? then t else PeersDrive(PeersResume(t, replies[0].result), replies[1..])
  }

  /** A peer request made at rest is carried through; otherwise it has returned already. */
  function PeersCall(s: State, r: P.Request, replies: seq<PeerReply>): State
    decreases replies, 1
  {
    if s.peers.pc.Done? then PeersDrive(PeersBegin(s, r), replies) else PeersBegin(s, r)
  }

  // -------------------------------------------------------------------------
  // Operations
  // -------------------------------------------------------------------------

  function Fault(s: State): State {
    s.(fault := true).Log(Faulted)
  }

  function Clear(s: State): State {
    s.(data := []).Log(Cleared(s.data))
  }

  function SetSettings(s: State, settings: Settings): State {
    s.(config := s.config.(settings := settings))
  }

  function OpenStatus(s: State, mac: Address, native: bool, added: bool, inited: bool): IOReturn {
    if s.owns || s.attached || s.fault then Busy
    else if !native || !Unicast(mac) then BadArgument
    else if !added || Pick(SOCIAL, s.domain) == [] then NotReady
    else if !inited then BadArgument
    else Success
  }

  function OpenWith(s: State, mac: Address, native: bool, added: bool, inited: bool): State {
    if s.owns || s.attached || s.fault || !native || !Unicast(mac) || !added then s
    else if Pick(SOCIAL, s.domain) == [] || !inited then Attached(s)
    else Installed(Attached(s), mac)
  }

  function Attached(s: State): State {
    s.(owns := true, attached := true)
  }

  function Installed(s: State, mac: Address): State
    requires Pick(SOCIAL, s.domain) != []
  {
    s.(config := Config(Opened(mac, s.domain), mac, [Init(mac)]), counter := 0).Log(Named(mac)).Log(Configured)
  }

  function Deactivated(s: State): State {
    SetPump(s.(active := false), 0)
  }

  function Activated(s: State): State {
    s.(active := true)
  }

  function Quitting(s: State): State {
    Deactivated(s).Log(Silenced)
  }

  function Disable(s: State, e: ActivateEnv): State
    decreases e, 0
  {
    Disabled(StopScheduler(Quitting(s), e.stop), StopOk(Quitting(s), e.stop), e.armed)
  }

  function Disabled(s: State, stopped: bool, armed: bool): State {
    if stopped then Rearm(Clear(s), armed) else Fault(Rearm(Clear(s), armed))
  }

  function Enable(s: State, e: ActivateEnv): State {
    if !e.received then s
    else if !s.config.settings.synchronize then Activated(s).Log(Enabled(Handing(s)))
    else if LaunchOk(Activated(s), e.launch) then Light(Activated(s), e.launch)
    else Unlaunched(Light(Activated(s), e.launch).(active := false), e.launch)
  }

  /** A failed activation leaves the deadline of its retry behind. Inside a window event, the
      stop in progress then cancels the timer. */
  function Unlaunched(s: State, l: Launch): State {
    if Handing(s) && !l.prepared then s.Log(Stranded) else s
  }

  function ActivateWith(s: State, on: bool, e: ActivateEnv): State
    decreases e, 1
  {
    if !s.owns || !s.attached then s
    else if !on then Disable(s, e)
    else if s.active || s.fault || !e.ready then s
    else Enable(s, e)
  }

  function CloseWith(s: State, stop: Halt, quiesced: bool): State
    decreases stop, 2
  {
    Released(StopScheduler(Deactivated(s), stop), quiesced)
  }

  function Released(s: State, quiesced: bool): State {
    var t := if s.owns && !quiesced then Fault(s) else s;
    SetSettings(Clear(Detached(t)), BLANK).Log(Closed)
  }

  function Detached(s: State): State {
    s.(owns := false, attached := false,
       timers := s.timers.(window := 0, timer := if s.attached then Idle else s.timers.timer))
  }

  predicate TurnsOff(s: State, next: Settings) {
    s.active && s.config.settings.synchronize && !next.synchronize
  }

  predicate TurnsOn(s: State, next: Settings) {
    s.active && next.synchronize && !s.config.settings.synchronize
  }

  function Adopted(s: State, next: Settings): State {
    s.(config := s.config.(election := s.config.election + [Adopt(next)]))
  }

  function Quieted(s: State, next: Settings, e: ApplyEnv): State
    decreases e, 0
  {
    if TurnsOff(s, next) then StopScheduler(s, e.stop) else s
  }

  function ApplySettings(s: State, next: Settings, e: ApplyEnv): State
    decreases e, 1
  {
    if !s.owns || s.fault || !Valid(next, s.config.mac, s.domain) then s
    else if TurnsOff(s, next) && !StopOk(s, e.stop) then Fault(StopScheduler(s, e.stop))
    else Restarted(Adopted(Quieted(s, next, e), next), next, e)
  }

  function Restarted(s: State, next: Settings, e: ApplyEnv): State {
    if !TurnsOn(s, next) then Committed(s, next, e)
    else if LaunchOk(s, e.launch) then Committed(Light(s, e.launch), next, e)
    else Fault(Light(s, e.launch))
  }

  function Committed(s: State, next: Settings, e: ApplyEnv): State {
    if s.active && next.synchronize then Pumped(SetSettings(s, next), e.now + 1, e.armed) else SetSettings(s, next)
  }

  /** A pump deadline that cannot be armed is a fault. */
  function Pumped(s: State, deadline: nat, armed: bool): State {
    var t := Rearm(SetPump(s, deadline), armed).Log(TimerRenewed);
    if RearmOk(SetPump(s, deadline), armed) then t else Fault(t)
  }

  predicate CommitOk(s: State, next: Settings, e: ApplyEnv) {
    s.active && next.synchronize ==> RearmOk(SetPump(SetSettings(s, next), e.now + 1), e.armed)
  }

  /** The status that `ApplySettings` returns. */
  function ApplyStatus(s: State, next: Settings, e: ApplyEnv): IOReturn {
    if !s.owns || s.fault then NotReady
    else if !Valid(next, s.config.mac, s.domain) then Unsupported
    else if TurnsOff(s, next) && !StopOk(s, e.stop) then Error
    else RestartStatus(Adopted(Quieted(s, next, e), next), next, e)
  }

  function RestartStatus(s: State, next: Settings, e: ApplyEnv): IOReturn {
    if TurnsOn(s, next) && !LaunchOk(s, e.launch) then Error
    else if CommitOk(if TurnsOn(s, next) then Light(s, e.launch) else s, next, e) then Success
    else Error
  }

  function RequestWith(s: State, version: nat, edit: Edit, e: ApplyEnv): State
    decreases e, 2
  {
    if !s.owns || s.fault || version > VERSION || |s.config.settings.channels.table| != TABLE then s
    else
      match Drafted(s.config.settings, edit, s.config.mac, s.domain)
      case Refused(_) => s
      case Proposed(next) => ApplySettings(s, next, e)
  }

  function Readdress(s: State, mac: Address, quiesced: bool, added: bool, inited: bool): State {
    if s.active || !s.owns || !s.attached || !Unicast(mac) then s
    else if !quiesced then Fault(s)
    else if !added then Fault(s.(owns := false))
    else if !inited then Fault(s)
    else Clear(Renamed(s, mac))
  }

  function Renamed(s: State, mac: Address): State {
    var settings := s.config.settings.(parent := s.config.settings.parent.(state := 1, master := mac));
    s.(config := Config(settings, mac, [Init(mac)]), counter := 0).Log(Named(mac))
  }

  predicate Admits(s: State, frame: Frame) {
    && s.active && s.config.settings.synchronize && frame.wellFormed && frame.source == s.config.mac
    && |s.data| != CAPACITY
  }

  function TransmitFrame(s: State, frame: Frame, now: nat, armed: bool): State {
    if !Admits(s, frame) then s else Rearm(SetPump(Queued(s, Slot(frame, now)), now + 1), armed)
  }

  function Queued(s: State, slot: Slot): State {
    s.(data := s.data + [slot]).Log(Enqueued(slot))
  }

  function ReportSettings(s: State): State {
    if s.owns && !s.fault then s.Log(Reported(s.config.settings)) else s
  }

  // -------------------------------------------------------------------------
  // The transmit loop
  // -------------------------------------------------------------------------

  /** The scheduler allows a transmission only in an open window of a backend without fault. */
  predicate CanTransmit(s: State, permitted: bool) {
    s.radio.phase.Open? && !s.radio.stopping && !s.fault && permitted
  }

  function SendActions(s: State, actions: seq<Action>): State
    decreases |actions|
  {
    if actions == [] then s else SendActions(SendAction(s, actions[0]), actions[1..])
  }

  function SendAction(s: State, a: Action): State {
    if a.due && (a.needsActive ==> s.active) && CanTransmit(s, a.permitted) && a.built then s.Log(ActionSent) else s
  }

  function Drop(s: State, e: Event): State
    requires s.data != []
  {
    s.(data := s.data[1..]).Log(e)
  }

  /** What the peer owner allows: any group, and a peer it holds authorized. */
  predicate Reaches(s: State, target: Address, turn: Turn, channel: nat) {
    Group(target) || (P.Authorized(s.peers.state, target) && OnChannel(turn, channel))
  }

  predicate Ready(s: State, turn: Turn, channel: nat)
    requires s.data != []
  {
    Reaches(s, s.data[0].frame.target, turn, channel) && CanTransmit(s, turn.permitted)
  }

  function StandingOf(s: State, a: Address): Standing {
    Standing(P.Latest(s.peers.state.log, a), P.Faulted(s.peers.state.log))
  }

  function Send(s: State, turn: Turn, channel: nat): State
    requires s.data != []
  {
    var standing := StandingOf(s, s.data[0].frame.target);
    Drop(s, Accepted(s.data[0], turn, channel, s.counter, standing)).(counter := (s.counter + 1) % COUNTERS)
  }

  /** One turn with the oldest frame. A stale or unencodable frame is dropped; a frame that has
      to wait ends the loop. */
  function TakeTurn(s: State, turn: Turn, channel: nat): Option<State>
    requires s.data != []
  {
    if !Fresh(s.data[0], turn.now) then Some(Drop(s, Expired(s.data[0], turn.now)))
    else if !Ready(s, turn, channel) then None
    else if !turn.encodes then Some(Drop(s, Unencodable(s.data[0])))
    else if !turn.accepted then None
    else Some(Send(s, turn, channel))
  }

  function SendData(s: State, turns: seq<Turn>, channel: nat, budget: nat): State
    decreases budget
  {
    if budget == 0 || turns == [] || !s.active || s.data == [] then s
    else
      match TakeTurn(s, turns[0], channel)
      case None => s
      case Some(t) => SendData(t, turns[1..], channel, budget - 1)
  }

  function ServeTransmit(s: State, e: FireEnv): State {
    var t := SendData(SendActions(s, e.actions), e.turns, e.channel, BUDGET);
    if e.end > e.done + 2500 then SetPump(t, e.done + 1000) else t
  }

  // -------------------------------------------------------------------------
  // The timer handler
  // -------------------------------------------------------------------------

  function TimerFired(s: State, e: FireEnv): State
    decreases e, 1
  {
    if s.servicing then s
    else
      var t := Spent(s);
      if !s.active then t else Serviced(t, e)
  }

  /** The timer goes off once. */
  function Spent(s: State): State {
    if s.timers.timer.Armed? then s.(timers := s.timers.(timer := Idle)) else s
  }

  function Serviced(s: State, e: FireEnv): State
    decreases e, 0
  {
    var t := Relaunched(Serving(s), e.launch);
    Finished(Judged(Serve(t, e.service)), e)
  }

  function Serving(s: State): State {
    SetPump(SetWindow(s.(servicing := true), 0), 0).Log(TimerRenewed)
  }

  function Relaunched(s: State, l: Launch): State {
    if !(s.config.settings.synchronize && s.radio.phase.Stopped?) then s
    else if LaunchOk(s, l) then LaunchRadio(s, l)
    else Fault(LaunchRadio(s, l))
  }

  function Judged(s: State): State {
    if s.radio.phase.Failed? then Fault(s) else s
  }

  function Finished(s: State, e: FireEnv): State {
    Concluded(Worked(s, e), e.retry, e.armed)
  }

  function Worked(s: State, e: FireEnv): State {
    if s.active && !s.fault && s.radio.phase.Open? then ServeTransmit(s, e) else s
  }

  function Concluded(s: State, retry: nat, armed: bool): (t: State)
    ensures t == s.(timers := t.timers, servicing := false)
  {
    var t := Retried(s, retry).(servicing := false);
    if t.active then Rearm(t, armed) else t
  }

  function Retried(s: State, now: nat): State {
    if s.active && s.config.settings.synchronize && !s.fault && s.radio.phase.Stopped?
    then SetPump(s, now + RETRY)
    else s
  }

  // -------------------------------------------------------------------------
  // Runs
  // -------------------------------------------------------------------------

  function CallOf(op: Op): Call {
    match op
    case OpenBackend(_, _, _, _) => Opening
    case Activate(on, _) => if on then Enabling else Disabling
    case Revoke => Revoking
    case Close(_, _) => Closing
    case Fire(_) => Firing
    case _ => Working
  }

  /** Some call on the backend or on the peer owner has not returned. */
  predicate InCall(s: State) {
    Handing(s) || s.servicing || !s.peers.pc.Done?
  }

  function Noted(s: State, op: Op): State {
    s.Log(Called(CallOf(op), InCall(s)))
  }

  function Step(s: State, op: Op): State
    decreases op, 1
  {
    if op.PeerCall? then PeersCall(s, op.request, op.replies)
    else if op.Report? then ReportSettings(s)
    else Perform(Noted(s, op), op)
  }

  /** Calls on the radio: not the questions to the peers, and not reading the settings. */
  predicate OnRadio(op: Op) {
    !op.PeerCall? && !op.Report?
  }

  function Perform(s: State, op: Op): State
    requires OnRadio(op)
    decreases op, 0
  {
    match op
    case OpenBackend(mac, native, added, inited) => OpenWith(s, mac, native, added, inited)
    case Activate(on, e) => ActivateWith(s, on, e)
    case Revoke => Deactivated(s)
    case Close(stop, quiesced) => CloseWith(s, stop, quiesced)
    case Request(version, edit, e) => RequestWith(s, version, edit, e)
    case SetAddress(mac, quiesced, added, inited) => Readdress(s, mac, quiesced, added, inited)
    case Transmit(frame, now, armed) => TransmitFrame(s, frame, now, armed)
    case Fire(e) => TimerFired(s, e)
  }

  function Run(s: State, ops: seq<Op>): State
    decreases ops, 0
  {
    if ops == [] then s else Run(Step(s, ops[0]), ops[1..])
  }
}
