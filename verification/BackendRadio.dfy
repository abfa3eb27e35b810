/** The timer, the scheduler and the settings of a backend that is used as the runtime uses it:
    what every call keeps, however calls nest inside window events and peer call-outs. */
module BackendRadio {
  import opened Common
  import opened AwdlSettings
  import opened Backend
  import P = Peers

  const REST := Timers(0, 0, Idle)

  predicate Orderly(s: State) {
    ConductOf(s.log).orderly
  }

  predicate Lapsed(s: State) {
    ConductOf(s.log).lapsed
  }

  /** Revoked while it was up, and neither disabled nor closed since. */
  predicate Owing(s: State) {
    ConductOf(s.log).owing && s.owns && s.attached
  }

  predicate IsClosing(s: State) {
    ConductOf(s.log).closing
  }

  /** The timer is armed for the earlier deadline, or idle if there is none. */
  predicate Follows(t: Timers) {
    t.timer.Unknown? || t.timer == Wanted(t)
  }

  /** There are no settings, or they are valid for the present address. */
  predicate Proper(s: State) {
    Unset(s.config.settings) || Valid(s.config.settings, s.config.mac, s.domain)
  }

  predicate Running(s: State) {
    !s.radio.phase.Stopped? && !s.radio.phase.Failed?
  }

  /** What holds whether or not the call after a revocation is still due. */
  predicate Rooted(s: State) {
    && (s.active ==> s.owns && s.attached)
    && (!s.attached ==> s.timers == REST && !Running(s) && !Lapsed(s))
    && (s.fault || Proper(s))
  }

  /** Traffic is given up and nothing is due. */
  predicate Quit(s: State) {
    !s.active && !Owing(s)
  }

  /** No timer is armed, and a deadline is left exactly if it lapsed. */
  predicate Calm(s: State) {
    && (Running(s) ==> s.radio.stopping)
    && s.timers.window == 0 && !s.timers.timer.Armed? && (s.timers.pump != 0 <==> Lapsed(s))
  }

  predicate Even(s: State) {
    && Rooted(s)
    && (s.active ==> Follows(s.timers) && !Lapsed(s))
    && (Quit(s) ==> Calm(s))
  }

  /** What holds inside the scheduler. */
  predicate Fine(s: State) {
    Orderly(s) ==> Even(s)
  }

  /** The timer of a deadline that lapsed was refused, and is cancelled when the event is over. */
  predicate Cancelled(s: State) {
    Orderly(s) && Quit(s) && Lapsed(s) ==> s.timers.timer == if Handing(s) then Unknown else Idle
  }

  /** The interface refused a timer to an activation that failed. */
  predicate Denied(s: State) {
    s.timers.timer.Unknown? && !Running(s) && !Lapsed(s)
  }

  /** An active backend's timer fails to follow exactly if its deadline lapsed, which takes a
      backend that is not synchronized and whose scheduler does not run. */
  predicate Exact(s: State) {
    (Lapsed(s) <==> !Follows(s.timers)) && (Lapsed(s) ==> !s.config.settings.synchronize && !Running(s))
  }

  predicate Mild(s: State) {
    Rooted(s) && (s.active ==> Exact(s)) && (Quit(s) ==> (Calm(s) && Cancelled(s)) || Denied(s))
  }

  /** Between calls the scheduler is not stopping: it has stopped. */
  predicate Steady(s: State) {
    s.radio.stopping ==> !s.radio.phase.Waiting? && !s.radio.phase.Reserved? && !s.radio.phase.Open?
  }

  predicate Firm(s: State) {
    Fine(s) && Steady(s) && Cancelled(s)
  }

  /** What holds between calls. */
  predicate Sane(s: State) {
    (Orderly(s) ==> Mild(s)) && Steady(s)
  }

  /** The backend should be synchronized and no pump deadline is set. */
  predicate Drowsy(s: State) {
    s.active && s.config.settings.synchronize && !s.fault && !s.servicing && s.timers.pump == 0
  }

  /** Without a pump deadline the scheduler is running and stays so. */
  predicate Awake(s: State) {
    Drowsy(s) ==> !s.radio.phase.Stopped? && !s.radio.stopping
  }

  /** Traffic cannot have been given up properly. */
  predicate Held(s: State) {
    s.owns && s.attached && (s.active || Owing(s))
  }

  predicate StillHeld(s: State, t: State) {
    t.fault || (Held(t) && t.config.mac == s.config.mac)
  }

  predicate Hushed(s: State, t: State) {
    && t.active == s.active && t.owns == s.owns && t.attached == s.attached
    && t.timers.pump == s.timers.pump && IsClosing(t)
  }

  /** What every step from `s` to `t` keeps. */
  predicate Goes(s: State, t: State) {
    && t.servicing == s.servicing && t.domain == s.domain && (s.fault ==> t.fault)
    && (Orderly(t) ==> Orderly(s))
    && (Orderly(t) && Awake(s) ==> Awake(t))
    && (Orderly(t) && IsClosing(s) ==> Hushed(s, t))
  }

  /** The scheduler is not touched while a window event is delivered. */
  predicate HandsOff(s: State, t: State) {
    if Handing(s) then t.radio == s.radio.(stopping := t.radio.stopping) && (s.radio.stopping ==> t.radio.stopping)
    else !Handing(t)
  }

  /** A whole call: inside a window event, traffic is given up only by a fault. */
  predicate Moves(s: State, t: State) {
    Goes(s, t) && HandsOff(s, t) && (Orderly(t) && Handing(s) && Held(s) ==> StillHeld(s, t))
  }

  /** A piece of the scheduler's work. */
  predicate Serves(s: State, t: State) {
    Goes(s, t) && !Handing(t) && (Orderly(t) && Held(s) ==> StillHeld(s, t))
  }

  lemma MovesOn(s: State, t: State, u: State)
    requires Moves(s, t) && Moves(t, u)
    ensures Moves(s, u)
  {
  }

  lemma ServesOn(s: State, t: State, u: State)
    requires Serves(s, t) && Serves(t, u)
    ensures Serves(s, u)
  {
  }

  // -------------------------------------------------------------------------
  // Pieces
  // -------------------------------------------------------------------------

  lemma RearmFine(s: State, armed: bool)
    requires Fine(s)
    ensures Fine(Rearm(s, armed)) && Rearm(s, armed).timers.pump == s.timers.pump
  {
  }

  lemma CancelFine(s: State, armed: bool)
    requires Fine(s)
    ensures Fine(Cancel(s, armed)) && Cancel(s, armed).timers.pump == s.timers.pump
  {
  }

  /** The scheduler arms the timer only while it is not stopping. */
  lemma ArmFine(s: State, a: Arming)
    requires Fine(s) && Running(s) && !s.radio.stopping
    ensures Fine(Arm(s, a)) && Arm(s, a).timers.pump == s.timers.pump
  {
  }

  lemma PhaseFine(s: State, phase: Phase)
    requires Fine(s) && (phase.Stopped? || phase.Failed? || Running(s))
    ensures Fine(SetPhase(s, phase))
  {
  }

  lemma FaultFine(s: State)
    ensures Goes(s, Fault(s)) && (Fine(s) ==> Fine(Fault(s))) && (Sane(s) ==> Sane(Fault(s)))
  {
  }

  /** The radio has been given back: a stop is over; otherwise the scheduler waits or gave up. */
  predicate Homed(s: State, t: State) {
    Firm(t) && Serves(s, t) && (s.radio.stopping ==> !Running(t)) && (Running(t) ==> t.radio.phase.Waiting?)
  }

  predicate Homeward(s: State) {
    Fine(s) && !Handing(s) && (s.radio.stopping || (s.servicing && Running(s)))
  }

  lemma HomeFine(s: State, h: Homing)
    requires Homeward(s)
    ensures Homed(s, ReturnHome(s, h))
  {
    if s.radio.leased && !h.restored {
      RadioLost(s, h);
    } else {
      RadioBack(s, h);
    }
  }

  lemma CancelServes(s: State, armed: bool)
    requires Homeward(s)
    ensures Homeward(Cancel(s, armed)) && Serves(s, Cancel(s, armed)) && Cancelled(Cancel(s, armed))
  {
    CancelFine(s, armed);
  }

  lemma RadioLost(s: State, h: Homing)
    requires Homeward(s) && s.radio.leased && !h.restored
    ensures Homed(s, ReturnHome(s, h))
  {
    var t := Cancel(s, h.cancelled);
    CancelServes(s, h.cancelled);
    PhaseFine(t, Failed);
    ServesOn(s, t, SetPhase(t, Failed));
  }

  lemma HomedFrom(s: State, u: State, t: State)
    requires Serves(s, u) && u.radio.stopping == s.radio.stopping && Homed(u, t)
    ensures Homed(s, t)
  {
    ServesOn(s, u, t);
  }

  lemma RadioBack(s: State, h: Homing)
    requires Homeward(s) && !(s.radio.leased && !h.restored)
    ensures Homed(s, ReturnHome(s, h))
  {
    var t := Cancel(s, h.cancelled);
    CancelServes(s, h.cancelled);
    var u := t.(radio := t.radio.(leased := false));
    assert Homeward(u) && Serves(s, u) && Cancelled(u);
    AtHomeFine(u, h.next);
    HomedFrom(s, u, AtHome(u, h.next));
  }

  lemma AtHomeFine(s: State, next: Arming)
    requires Homeward(s) && Cancelled(s)
    ensures Homed(s, AtHome(s, next))
  {
    if s.radio.reset {
      PhaseFine(s, Failed);
    } else if s.radio.stopping {
      PhaseFine(s, Stopped);
    } else {
      ArmFine(s, next);
    }
  }

  // -------------------------------------------------------------------------
  // The scheduler
  // -------------------------------------------------------------------------

  /** A piece of the scheduler's work is over. */
  predicate Served(s: State, t: State) {
    Firm(t) && Serves(s, t)
  }

  /** The scheduler goes about its work. */
  predicate Busily(s: State) {
    Fine(s) && s.servicing && Running(s) && !Handing(s) && !s.radio.stopping
  }

  /** A window may end: a deadline that lapsed meanwhile still has its timer refused. */
  predicate Poised(s: State) {
    Orderly(s) && Quit(s) && Lapsed(s) && s.radio.phase.Open? ==> s.timers.timer.Unknown?
  }

  lemma EndWindowServes(s: State, h: Handoff)
    requires Fine(s) && !Handing(s) && Poised(s)
    ensures var t := EndWindow(s, h);
      && Fine(t) && Serves(s, t) && (s.radio.stopping ==> t.radio.stopping)
      && (if s.radio.phase.Open? then t.radio.phase.Reserved? else t == s)
    decreases h, 0
  {
    if s.radio.phase.Open? {
      var a := SetPhase(s, Ending);
      PhaseFine(s, Ending);
      RunMoves(a, h.ops);
      WindowEnded(s, Run(a, h.ops), h.taken);
    }
  }

  lemma WindowEnded(s: State, b: State, taken: bool)
    requires s.radio.phase.Open? && Sane(b) && Moves(SetPhase(s, Ending), b)
    ensures Fine(Ended(b, taken)) && Serves(s, Ended(b, taken))
    ensures s.radio.stopping ==> Ended(b, taken).radio.stopping
  {
  }

  /** Ending the window, if there is one, and giving the radio back. */
  lemma EndedHome(s: State, h: Handoff, home: Homing)
    requires Homeward(s) && Poised(s)
    ensures Homed(s, ReturnHome(EndWindow(s, h), home))
    decreases h, 1
  {
    var t := EndWindow(s, h);
    EndWindowServes(s, h);
    HomeFine(t, home);
    ServesOn(s, t, ReturnHome(t, home));
  }

  /** A stop that does not meet a window event ends with the scheduler stopped or failed. */
  predicate Halts(s: State, t: State) {
    if Handing(s) then t == s && Firm(t) else Served(s, t) && !Running(t)
  }

  lemma HaltedHalts(s: State, e: Halt)
    requires Fine(s) && s.radio.stopping && Poised(s) && (Handing(s) || s.radio.phase.Stopped? ==> Cancelled(s))
    ensures Halts(s, Halted(s, e))
    decreases e, 0
  {
    if !Handing(s) && !s.radio.phase.Stopped? {
      EndedHome(s, e.end, e.home);
    }
  }

  /** The scheduler stops itself. */
  lemma StopServes(s: State, e: Halt)
    requires Fine(s) && s.servicing && !Handing(s) && (Orderly(s) && Quit(s) ==> !Lapsed(s))
    ensures Served(s, StopScheduler(s, e))
    decreases e, 1
  {
    var t := Stopping(s, e.cancelled);
    CancelFine(s.(radio := s.radio.(stopping := true)), e.cancelled);
    HaltedHalts(t, e);
    ServesOn(s, t, Halted(t, e));
  }

  lemma DeferredServes(s: State, a: Arming, halt: Halt)
    requires Busily(s)
    ensures Served(s, Deferred(s, a, halt))
    decreases halt, 2
  {
    ArmFine(s, a);
    var t := Arm(s, a);
    assert Served(s, t);
    if !ArmOk(s, a) {
      StopServes(t, halt);
      ServesOn(s, t, StopScheduler(t, halt));
    }
  }

  lemma HomeServes(s: State, h: Homing)
    requires Busily(s)
    ensures Served(s, ReturnHome(s, h))
  {
    HomeFine(s, h);
  }

  /** From the delivery of an event to the next phase. */
  lemma PhaseServes(s: State, phase: Phase)
    requires Fine(s) && s.servicing && Running(s) && (phase.Reserved? || phase.Open?)
    ensures Fine(SetPhase(s, phase)) && Serves(s, SetPhase(s, phase))
  {
  }

  /** The native family did not take the announcement of a window. */
  lemma RefusedServes(s: State, home: Homing)
    requires Firm(s) && s.servicing && s.radio.phase.Starting?
    ensures Served(s, ReturnHome(SetPhase(s, Reserved), home))
  {
    var t := SetPhase(s, Reserved);
    PhaseServes(s, Reserved);
    HomeFine(t, home);
    ServesOn(s, t, ReturnHome(t, home));
  }

  /** The scheduler was told to stop while it announced the window. */
  lemma OvertakenServes(s: State, end: Handoff, home: Homing)
    requires Firm(s) && s.servicing && s.radio.phase.Starting? && s.radio.stopping
    ensures Served(s, ReturnHome(EndWindow(SetPhase(s, Open), end), home))
    decreases end, 2
  {
    var t := SetPhase(s, Open);
    PhaseServes(s, Open);
    EndedHome(t, end, home);
    ServesOn(s, t, ReturnHome(EndWindow(t, end), home));
  }

  lemma AnnouncedServes(s: State, until: Arming, halt: Halt)
    requires Firm(s) && s.servicing && s.radio.phase.Starting? && !s.radio.stopping
    ensures Served(s, Deferred(SetPhase(s, Open), until, halt))
    decreases halt, 3
  {
    var t := SetPhase(s, Open);
    PhaseServes(s, Open);
    DeferredServes(t, until, halt);
    ServesOn(s, t, Deferred(t, until, halt));
  }

  lemma EnteredServes(s: State, e: Entry)
    requires Firm(s) && s.servicing && s.radio.phase.Starting?
    ensures Served(s, Entered(s, e))
    decreases e, 0
  {
    if !e.start.taken {
      RefusedServes(s, e.home);
    } else if s.radio.stopping {
      OvertakenServes(s, e.end, e.home);
    } else {
      AnnouncedServes(s, e.until, e.halt);
    }
  }

  lemma OpenWindowServes(s: State, e: Entry)
    requires Busily(s)
    ensures Served(s, OpenWindow(s, e))
    decreases e, 1
  {
    if !e.opens || s.fault {
      HomeServes(s, e.home);
    } else {
      var a := SetPhase(s, Starting);
      PhaseFine(s, Starting);
      RunMoves(a, e.start.ops);
      EnteredServes(Run(a, e.start.ops), e);
      Announced(s, Run(a, e.start.ops), OpenWindow(s, e));
    }
  }

  lemma Announced(s: State, b: State, t: State)
    requires !Handing(s) && s.servicing && Moves(SetPhase(s, Starting), b) && Served(b, t)
    ensures Served(s, t)
  {
  }

  lemma ArriveServes(s: State, a: Arrival)
    requires Busily(s)
    ensures Served(s, Arrive(s, a))
    decreases a, 0
  {
    match a
    case GiveUp(home) => HomeServes(s, home);
    case Wait(until, halt) => DeferredServes(s, until, halt);
    case Enter(entry) => OpenWindowServes(s, entry);
  }

  lemma BookedServes(s: State, b: Booking)
    requires Busily(s)
    ensures Served(s, Booked(s, b))
    decreases b, 0
  {
    match b
    case Rejected(cancelled, again, halt) =>
      CancelFine(s, cancelled);
      DeferredServes(Cancel(s, cancelled), again, halt);
      ServesOn(s, Cancel(s, cancelled), Booked(s, b));
    case Leased(arrival) =>
      var t := s.(radio := s.radio.(phase := Reserved, leased := true));
      ArriveServes(t, arrival);
      ServesOn(s, t, Booked(s, b));
  }

  lemma PlannedServes(s: State, p: Plan)
    requires Busily(s)
    ensures Served(s, Planned(s, p))
    decreases p, 0
  {
    match p
    case Later(at, halt) => DeferredServes(s, at, halt);
    case Book(expiry, booking, halt) =>
      var t := Arm(s, expiry);
      ArmFine(s, expiry);
      if ArmOk(s, expiry) {
        BookedServes(t, booking);
      } else {
        StopServes(t, halt);
      }
      ServesOn(s, t, Planned(s, p));
  }

  lemma WindowOverServes(s: State, p: Plan)
    requires Firm(s) && s.servicing && !Handing(s)
    ensures Served(s, WindowOver(s, p))
    decreases p, 1
  {
    if s.radio.phase.Waiting? {
      PlannedServes(s, p);
    }
  }

  /** The timer of an active backend follows its deadlines. */
  predicate Attentive(s: State) {
    Orderly(s) && s.active ==> !Lapsed(s)
  }

  lemma ServeServes(s: State, e: Service)
    requires Sane(s) && s.servicing && !Handing(s) && Attentive(s)
    ensures Sane(Serve(s, e)) && Serves(s, Serve(s, e)) && Attentive(Serve(s, e))
    decreases e, 1
  {
    if s.radio.phase.Stopped? || s.radio.phase.Failed? {
    } else if s.radio.stopping || !e.ready || s.fault {
      StopServes(s, e.halt);
    } else if s.radio.phase.Waiting? {
      PlannedServes(s, e.plan);
    } else if s.radio.phase.Reserved? {
      ArriveServes(s, e.arrival);
    } else if e.stays.Some? {
      DeferredServes(s, e.stays.value, e.halt);
    } else {
      var t := ReturnHome(EndWindow(s, e.end), e.home);
      EndedHome(s, e.end, e.home);
      WindowOverServes(t, e.plan);
      ServesOn(s, t, WindowOver(t, e.plan));
    }
  }

  // -------------------------------------------------------------------------
  // Calls
  // -------------------------------------------------------------------------

  predicate Moved(s: State, t: State) {
    Sane(t) && Moves(s, t)
  }

  /** A call that need not settle a revocation has been noted. */
  predicate Entering(s: State) {
    Sane(s) && !IsClosing(s)
  }

  lemma NotedMoves(s: State, op: Op)
    requires Sane(s) && !CallOf(op).Disabling? && !CallOf(op).Closing? && !CallOf(op).Revoking?
    ensures Entering(Noted(s, op)) && Moves(s, Noted(s, op))
  {
  }

  lemma OpenMoves(s: State, mac: Address, native: bool, added: bool, inited: bool)
    requires Entering(s) && !ConductOf(s.log).owing
    ensures Moved(s, OpenWith(s, mac, native, added, inited))
  {
    if OpenWith(s, mac, native, added, inited) != s {
      AttachedMoves(s);
      if OpenStatus(s, mac, native, added, inited) == Success {
        InstalledMoves(Attached(s), mac);
        MovesOn(s, Attached(s), Installed(Attached(s), mac));
      }
    }
  }

  lemma AttachedMoves(s: State)
    requires Entering(s) && !s.owns && !s.attached
    ensures Moved(s, Attached(s)) && Entering(Attached(s))
  {
  }

  lemma InstalledMoves(s: State, mac: Address)
    requires Entering(s) && !ConductOf(s.log).owing && (Orderly(s) ==> !s.active)
    requires Unicast(mac) && Pick(SOCIAL, s.domain) != []
    ensures Moved(s, Installed(s, mac))
  {
    OpenedIsValid(mac, s.domain);
  }

  /** Launching the radio of an active backend. */
  lemma LaunchMoves(s: State, l: Launch)
    requires Sane(s) && s.active && Attentive(s)
    ensures var t := LaunchRadio(s, l); Sane(t) && HandsOff(s, t) && (LaunchOk(s, l) ==> Awake(t)) && Attentive(t)
  {
  }

  /** The timer is renewed, or nothing happens. */
  lemma LightMoves(s: State, l: Launch)
    requires Sane(s) && s.active
    ensures var t := Light(s, l);
      && Sane(t) && HandsOff(s, t) && (LaunchOk(s, l) ==> Awake(t)) && (Launches(s, l) ==> Attentive(t))
  {
    if Launches(s, l) {
      var t := LaunchRadio(s, l);
      assert t == s.(timers := t.timers, radio := t.radio);
      assert s.attached ==> Follows(t.timers);
    }
  }

  lemma EnableMoves(s: State, e: ActivateEnv)
    requires Entering(s) && !Owing(s) && s.owns && s.attached && !s.active && !s.fault
    ensures Moved(s, Enable(s, e))
  {
    if !e.received {
    } else if !s.config.settings.synchronize {
      ActivatedMoves(s);
    } else {
      LaunchedMoves(s, e.launch);
    }
  }

  /** Without synchronization the timer is not touched. */
  lemma ActivatedMoves(s: State)
    requires Entering(s) && !Owing(s) && s.owns && s.attached && !s.active && !s.config.settings.synchronize
    ensures Moved(s, Activated(s).Log(Enabled(Handing(s))))
  {
  }

  lemma LaunchedMoves(s: State, l: Launch)
    requires Entering(s) && !Owing(s) && s.owns && s.attached && !s.active
    ensures LaunchOk(Activated(s), l) ==> Moved(s, Light(Activated(s), l))
    ensures !LaunchOk(Activated(s), l) ==> Moved(s, Unlaunched(Light(Activated(s), l).(active := false), l))
  {
    if LaunchOk(Activated(s), l) {
      LitMoves(s, l);
    } else if !l.prepared {
      RetryDenied(s, l);
    } else if CanStart(s, l) {
      StartDenied(s, l);
    } else {
      assert Unlaunched(Light(Activated(s), l).(active := false), l) == s;
    }
  }

  lemma LitMoves(s: State, l: Launch)
    requires Entering(s) && !Owing(s) && s.owns && s.attached && !s.active && LaunchOk(Activated(s), l)
    ensures Moved(s, Light(Activated(s), l))
  {
    var t := LaunchRadio(Activated(s), l);
    assert t == Activated(s).(timers := t.timers, radio := t.radio) && Follows(t.timers);
  }

  /** A retry whose timer is refused. */
  lemma RetryDenied(s: State, l: Launch)
    requires Entering(s) && !Owing(s) && s.owns && s.attached && !s.active && !LaunchOk(Activated(s), l) && !l.prepared
    ensures Moved(s, Unlaunched(Light(Activated(s), l).(active := false), l))
  {
    var t := LaunchRadio(Activated(s), l).(active := false);
    assert t == s.(timers := Timers(s.timers.window, l.now + RETRY, Unknown));
    if Handing(s) {
      StrandedMoves(s, t.Log(TimerRenewed).Log(Stranded), l.now + RETRY);
    } else {
      DeniedMoves(s, t.Log(TimerRenewed));
    }
  }

  lemma StrandedMoves(s: State, t: State, retry: nat)
    requires Entering(s) && Quit(s) && s.attached && Handing(s) && retry != 0
    requires t == s.(timers := Timers(s.timers.window, retry, Unknown), log := t.log)
    requires ConductOf(t.log) == ConductOf(s.log).(lapsed := true)
    ensures Moved(s, t)
  {
  }

  /** A launch that is refused its timer outside a window event. */
  lemma DeniedMoves(s: State, t: State)
    requires Entering(s) && Quit(s) && s.attached && !Handing(s) && t.timers.timer.Unknown?
    requires t == s.(timers := t.timers, radio := t.radio, log := t.log)
    requires t.radio == s.radio || (t.radio.phase.Stopped? && !Handing(t))
    requires ConductOf(t.log) == ConductOf(s.log).(lapsed := false)
    ensures Moved(s, t)
  {
  }

  lemma StartDenied(s: State, l: Launch)
    requires Entering(s) && !Owing(s) && s.owns && s.attached && !s.active && !LaunchOk(Activated(s), l)
    requires l.prepared && CanStart(s, l)
    ensures Moved(s, Unlaunched(Light(Activated(s), l).(active := false), l))
  {
    var t := LaunchRadio(Activated(s), l).(active := false);
    assert t == s.(timers := t.timers, radio := t.radio) && t.timers.timer.Unknown? && t.radio.phase.Stopped?;
    DeniedMoves(s, t.Log(TimerRenewed));
  }

  /** A revocation, seen from before it was noted. */
  lemma RevokeMoves(s: State)
    requires Sane(s)
    ensures Moved(s, Deactivated(Noted(s, Revoke)))
  {
    var t := Deactivated(Noted(s, Revoke));
    assert t == s.(active := false, timers := s.timers.(pump := 0), log := t.log);
  }

  // -------------------------------------------------------------------------
  // Calls that settle a revocation
  // -------------------------------------------------------------------------

  /** What such a call starts from. */
  predicate Settling(s: State) {
    (Orderly(s) ==> Rooted(s)) && Steady(s) && !ConductOf(s.log).owing
  }

  lemma NotedSettles(s: State, op: Op)
    requires Sane(s) && (CallOf(op).Disabling? || CallOf(op).Closing?)
    ensures Settling(Noted(s, op))
  {
  }

  /** Giving up traffic, up to the first cancellation of the timer. */
  lemma QuitFine(s: State, armed: bool)
    requires Settling(s) && !s.active && s.timers.pump == 0 && !Lapsed(s)
    ensures Fine(Stopping(s, armed)) && Awake(Stopping(s, armed))
  {
  }

  /** Traffic given up: the scheduler is stopped, or a window event is being delivered. */
  predicate Ceases(s: State, t: State) {
    && Firm(t) && t.servicing == s.servicing && t.domain == s.domain && (s.fault ==> t.fault)
    && (Orderly(t) ==> Orderly(s) && Awake(t))
    && (if Handing(s) then t.radio == s.radio.(stopping := true) && !Lapsed(t) else !Running(t))
  }

  /** The call that gives up traffic has been noted. */
  predicate Begins(s: State, q: State) {
    && q.servicing == s.servicing && q.domain == s.domain && q.fault == s.fault && q.radio == s.radio
    && (Orderly(q) ==> Orderly(s) && !IsClosing(s))
  }

  lemma CeasingMoves(s: State, q: State, t: State)
    requires Begins(s, q) && Ceases(q, t) && (Orderly(t) && Handing(s) && Held(s) ==> t.fault)
    ensures Moved(s, t)
  {
  }

  lemma StopCeases(s: State, e: Halt)
    requires Settling(s) && !s.active && s.timers.pump == 0 && !Lapsed(s)
    ensures var t := StopScheduler(s, e); Ceases(s, t) && (Orderly(t) && IsClosing(s) ==> Hushed(s, t))
    decreases e, 1
  {
    QuitFine(s, e.cancelled);
    HaltedHalts(Stopping(s, e.cancelled), e);
  }

  lemma DisabledCeases(q: State, s: State, stopped: bool, armed: bool)
    requires Ceases(q, s)
    ensures var t := Disabled(s, stopped, armed); Ceases(q, t) && (!stopped ==> t.fault)
  {
    assert Fine(Clear(s));
    RearmFine(Clear(s), armed);
    FaultFine(Rearm(Clear(s), armed));
  }

  /** Disabling, seen from before the call was noted. */
  lemma DisableMoves(s: State, op: Op)
    requires Sane(s) && op.Activate? && !op.on && s.owns && s.attached
    ensures Moved(s, Disable(Noted(s, op), op.activation))
    decreases op.activation, 0
  {
    var e, q := op.activation, Quitting(Noted(s, op));
    QuittingBegins(s, op);
    StopCeases(q, e.stop);
    DisabledCeases(q, StopScheduler(q, e.stop), StopOk(q, e.stop), e.armed);
    HandingRefuses(q, e.stop);
    CeasingMoves(s, q, Disable(Noted(s, op), e));
  }

  lemma QuittingBegins(s: State, op: Op)
    requires Sane(s) && op.Activate? && !op.on
    ensures var q := Quitting(Noted(s, op));
      Settling(q) && Begins(s, q) && !q.active && q.timers.pump == 0 && !Lapsed(q)
  {
    NotedSettles(s, op);
  }

  lemma HandingRefuses(s: State, e: Halt)
    ensures Handing(s) ==> !StopOk(s, e)
  {
  }

  lemma DisableRefused(s: State, op: Op)
    requires Sane(s) && op.Activate? && !op.on && !(s.owns && s.attached)
    ensures Moved(s, Noted(s, op))
  {
  }

  lemma CloseMoves(s: State, op: Op)
    requires Sane(s) && op.Close?
    ensures Moved(s, CloseWith(Noted(s, op), op.stop, op.quiesced))
    decreases op.stop, 2
  {
    var q := Deactivated(Noted(s, op));
    ClosingBegins(s, op);
    StopCeases(q, op.stop);
    ReleasedCeases(q, StopScheduler(q, op.stop), op.quiesced);
    CeasingMoves(s, q, CloseWith(Noted(s, op), op.stop, op.quiesced));
  }

  lemma ClosingBegins(s: State, op: Op)
    requires Sane(s) && op.Close?
    ensures var q := Deactivated(Noted(s, op));
      && Settling(q) && Begins(s, q) && !q.active && q.timers.pump == 0 && !Lapsed(q) && IsClosing(q)
      && (Orderly(q) ==> !Handing(q))
  {
    NotedSettles(s, op);
  }

  lemma ReleasedCeases(q: State, s: State, quiesced: bool)
    requires Ceases(q, s) && IsClosing(q) && !q.active && q.timers.pump == 0
    requires Orderly(s) ==> Hushed(q, s) && !Handing(q)
    ensures Ceases(q, Released(s, quiesced))
    ensures Orderly(Released(s, quiesced)) ==> !Handing(q)
  {
    assert Unset(BLANK);
  }

  // -------------------------------------------------------------------------
  // Settings
  // -------------------------------------------------------------------------

  /** Settings valid for the present address may be stored. */
  lemma StoredSane(s: State, next: Settings)
    requires Sane(s) && (Orderly(s) ==> s.fault || Valid(next, s.config.mac, s.domain))
    requires s.active && Lapsed(s) ==> !next.synchronize
    ensures Sane(SetSettings(s, next))
  {
  }

  lemma PumpSet(s: State, deadline: nat, armed: bool)
    requires Entering(s) && s.active && Attentive(s) && deadline != 0
    ensures var t := Rearm(SetPump(s, deadline), armed); Moved(s, t) && Awake(t) && Entering(t)
  {
  }

  lemma FaultedMoves(s: State)
    requires Sane(s)
    ensures Moved(s, Fault(s)) && Awake(Fault(s))
  {
    FaultFine(s);
  }

  /** Settings that synchronize renew the timer. */
  lemma SynchronizedMoves(s: State, next: Settings, deadline: nat, armed: bool)
    requires Entering(s) && s.active && Valid(next, s.config.mac, s.domain) && deadline != 0
    ensures var t := Rearm(SetPump(SetSettings(s, next), deadline), armed).Log(TimerRenewed); Moved(s, t) && Awake(t)
  {
    var u := Rearm(SetPump(SetSettings(s, next), deadline), armed);
    assert u == s.(config := u.config, timers := u.timers) && u.timers.pump == deadline;
    assert s.attached ==> Follows(u.timers);
  }

  lemma CommittedMoves(s: State, next: Settings, e: ApplyEnv)
    requires Entering(s) && Valid(next, s.config.mac, s.domain)
    ensures Moved(s, Committed(s, next, e))
  {
    if s.active && next.synchronize {
      var t := Rearm(SetPump(SetSettings(s, next), e.now + 1), e.armed).Log(TimerRenewed);
      SynchronizedMoves(s, next, e.now + 1, e.armed);
      FaultedMoves(t);
      MovesOn(s, t, Fault(t));
    } else {
      StoredSane(s, next);
    }
  }

  lemma RestartedMoves(s: State, next: Settings, e: ApplyEnv)
    requires Entering(s) && Valid(next, s.config.mac, s.domain)
    ensures Moved(s, Restarted(s, next, e))
  {
    if !TurnsOn(s, next) {
      CommittedMoves(s, next, e);
    } else {
      LightMoves(s, e.launch);
      LightGoes(s, e.launch);
      if LaunchOk(s, e.launch) {
        CommittedMoves(Light(s, e.launch), next, e);
        MovesOn(s, Light(s, e.launch), Restarted(s, next, e));
      }
    }
  }

  lemma LightGoes(s: State, l: Launch)
    requires Entering(s) && s.active
    requires var t := Light(s, l); Sane(t) && HandsOff(s, t) && (LaunchOk(s, l) ==> Awake(t))
    ensures var t := Light(s, l); if LaunchOk(s, l) then Moves(s, t) && Entering(t) else Moved(s, Fault(t))
  {
    FaultFine(Light(s, l));
  }

  /** Stopping the scheduler because synchronization is switched off. */
  predicate SwitchedOff(s: State, t: State) {
    && Firm(t) && t.servicing == s.servicing && t.domain == s.domain && (s.fault ==> t.fault)
    && (Orderly(t) ==> Orderly(s)) && HandsOff(s, t)
    && (Orderly(t) && !Handing(s) ==> t.fault || t.config.mac == s.config.mac)
  }

  lemma StopSwitchesOff(s: State, e: Halt)
    requires Entering(s) && s.active && Attentive(s)
    ensures SwitchedOff(s, StopScheduler(s, e))
    decreases e, 1
  {
    var t := Stopping(s, e.cancelled);
    CancelFine(s.(radio := s.radio.(stopping := true)), e.cancelled);
    HaltedHalts(t, e);
  }

  lemma UnswitchedMoves(s: State, t: State)
    requires Entering(s) && SwitchedOff(s, t)
    ensures Moved(s, Fault(t))
  {
    FaultFine(t);
  }

  lemma SwitchedMoves(s: State, t: State, next: Settings)
    requires Entering(s) && SwitchedOff(s, t) && !Handing(s)
    requires Valid(next, s.config.mac, s.domain) && !next.synchronize
    ensures Moved(s, SetSettings(Adopted(t, next), next))
  {
    StoredSane(Adopted(t, next), next);
  }

  lemma ApplyMoves(s: State, next: Settings, e: ApplyEnv)
    requires Entering(s)
    ensures Moved(s, ApplySettings(s, next, e))
    decreases e, 1
  {
    if s.owns && !s.fault && Valid(next, s.config.mac, s.domain) {
      if TurnsOff(s, next) {
        OffMoves(s, next, e);
      } else {
        OnMoves(s, next, e);
      }
    }
  }

  lemma AdoptedMoves(s: State, next: Settings)
    requires Entering(s)
    ensures Entering(Adopted(s, next)) && Moves(s, Adopted(s, next))
  {
  }

  lemma OnMoves(s: State, next: Settings, e: ApplyEnv)
    requires Entering(s) && s.owns && !s.fault && Valid(next, s.config.mac, s.domain) && !TurnsOff(s, next)
    ensures Moved(s, ApplySettings(s, next, e))
  {
    var a := Adopted(s, next);
    AdoptedMoves(s, next);
    RestartedMoves(a, next, e);
    MovesOn(s, a, Restarted(a, next, e));
    assert ApplySettings(s, next, e) == Restarted(a, next, e);
  }

  lemma OffMoves(s: State, next: Settings, e: ApplyEnv)
    requires Entering(s) && s.owns && !s.fault && Valid(next, s.config.mac, s.domain) && TurnsOff(s, next)
    ensures Moved(s, ApplySettings(s, next, e))
    decreases e, 0
  {
    var t := StopScheduler(s, e.stop);
    StopSwitchesOff(s, e.stop);
    HandingRefuses(s, e.stop);
    if !StopOk(s, e.stop) {
      UnswitchedMoves(s, t);
    } else {
      SwitchedMoves(s, t, next);
      assert Restarted(Adopted(t, next), next, e) == SetSettings(Adopted(t, next), next);
    }
  }

  lemma RequestMoves(s: State, version: nat, edit: Edit, e: ApplyEnv)
    requires Entering(s)
    ensures Moved(s, RequestWith(s, version, edit, e))
    decreases e, 2
  {
    var settings := s.config.settings;
    if s.owns && !s.fault && version <= VERSION && |settings.channels.table| == TABLE
       && Drafted(settings, edit, s.config.mac, s.domain).Proposed? {
      ApplyMoves(s, Drafted(settings, edit, s.config.mac, s.domain).next, e);
    }
  }

  lemma ReaddressMoves(s: State, mac: Address, quiesced: bool, added: bool, inited: bool)
    requires Entering(s) && !ConductOf(s.log).owing
    ensures Moved(s, Readdress(s, mac, quiesced, added, inited))
  {
    if s.active || !s.owns || !s.attached || !Unicast(mac) {
    } else if !quiesced || !added || !inited {
      BrokenMoves(s, added || !quiesced);
    } else {
      RenamedMoves(s, mac);
    }
  }

  lemma BrokenMoves(s: State, owns: bool)
    requires Entering(s) && !ConductOf(s.log).owing && !s.active && s.owns && s.attached
    ensures Moved(s, Fault(s.(owns := owns)))
  {
  }

  lemma RenamedMoves(s: State, mac: Address)
    requires Entering(s) && !ConductOf(s.log).owing && !s.active && s.owns && s.attached && Unicast(mac)
    ensures Moved(s, Clear(Renamed(s, mac)))
  {
  }

  // -------------------------------------------------------------------------
  // Frames and the timer
  // -------------------------------------------------------------------------

  lemma TransmitMoves(s: State, frame: Frame, now: nat, armed: bool)
    requires Entering(s)
    ensures Moved(s, TransmitFrame(s, frame, now, armed))
  {
    if Admits(s, frame) {
      var q := Queued(s, Slot(frame, now));
      assert Sane(q) && Moves(s, q);
      PumpSet(q, now + 1, armed);
      MovesOn(s, q, Rearm(SetPump(q, now + 1), armed));
    }
  }

  lemma ReportMoves(s: State)
    requires Sane(s)
    ensures Moved(s, ReportSettings(s))
  {
    if s.owns && !s.fault {
      var t := ReportSettings(s);
      assert t == s.(log := t.log) && ConductOf(t.log) == ConductOf(s.log);
      LoggedMoves(s, t);
    }
  }

  lemma LoggedMoves(s: State, t: State)
    requires Sane(s) && t == s.(log := t.log) && ConductOf(t.log) == ConductOf(s.log)
    ensures Moved(s, t)
  {
  }

  /** The transmit loop touches frames and the pump deadline alone. */
  predicate Works(s: State, t: State) {
    && t == s.(data := t.data, counter := t.counter, log := t.log, timers := s.timers.(pump := t.timers.pump))
    && ConductOf(t.log) == ConductOf(s.log)
  }

  lemma {:induction false} ActionsWork(s: State, actions: seq<Action>)
    ensures Works(s, SendActions(s, actions))
    decreases |actions|
  {
    if actions != [] {
      ActionsWork(SendAction(s, actions[0]), actions[1..]);
    }
  }

  lemma DropWorks(s: State, e: Event)
    requires s.data != [] && (e.Accepted? || e.Expired? || e.Unencodable?)
    ensures Works(s, Drop(s, e))
  {
  }

  lemma TurnWorks(s: State, turn: Turn, channel: nat)
    requires s.data != []
    ensures TakeTurn(s, turn, channel).Some? ==> Works(s, TakeTurn(s, turn, channel).value)
  {
    if !Fresh(s.data[0], turn.now) {
      DropWorks(s, Expired(s.data[0], turn.now));
    } else if !turn.encodes {
      DropWorks(s, Unencodable(s.data[0]));
    } else {
      SendWorks(s, turn, channel);
    }
  }

  lemma SendWorks(s: State, turn: Turn, channel: nat)
    requires s.data != []
    ensures Works(s, Send(s, turn, channel))
  {
    var standing := StandingOf(s, s.data[0].frame.target);
    DropWorks(s, Accepted(s.data[0], turn, channel, s.counter, standing));
  }

  lemma {:induction false} DataWorks(s: State, turns: seq<Turn>, channel: nat, budget: nat)
    ensures Works(s, SendData(s, turns, channel, budget))
    decreases budget
  {
    if budget != 0 && turns != [] && s.active && s.data != [] && TakeTurn(s, turns[0], channel).Some? {
      TurnWorks(s, turns[0], channel);
      DataWorks(TakeTurn(s, turns[0], channel).value, turns[1..], channel, budget - 1);
    }
  }

  lemma WorkedWorks(s: State, e: FireEnv)
    ensures Works(s, Worked(s, e)) && (!s.active ==> Worked(s, e) == s)
  {
    ActionsWork(s, e.actions);
    DataWorks(SendActions(s, e.actions), e.turns, e.channel, BUDGET);
  }

  /** From a timer that fired to the end of the scheduler's service. */
  predicate Fired(s: State, t: State) {
    && Sane(t) && t.servicing && t.domain == s.domain && (s.fault ==> t.fault) && (Orderly(t) ==> Orderly(s))
    && HandsOff(s, t) && Attentive(t)
  }

  lemma RelaunchedFires(s: State, t: State, l: Launch)
    requires Fired(s, t) && t.active
    ensures Fired(s, Relaunched(t, l))
  {
    if t.config.settings.synchronize && t.radio.phase.Stopped? {
      LaunchMoves(t, l);
      FaultFine(LaunchRadio(t, l));
    }
  }

  lemma ServeFires(s: State, t: State, e: Service)
    requires Fired(s, t)
    ensures Fired(s, Serve(t, e))
    decreases e, 2
  {
    if !Handing(t) {
      ServeServes(t, e);
    }
  }

  /** A scheduler that failed is a fault. */
  lemma JudgedFires(s: State, t: State)
    requires Fired(s, t)
    ensures Fired(s, Judged(t)) && (Judged(t).radio.phase.Failed? ==> Judged(t).fault)
  {
    FaultFine(t);
  }

  lemma ConcludedSane(s: State, retry: nat, armed: bool)
    requires (Orderly(s) ==> Rooted(s) && (!s.active ==> Mild(s))) && Steady(s) && Attentive(s)
    requires Orderly(s) ==> !Handing(s) && (s.radio.phase.Failed? ==> s.fault)
    ensures var t := Concluded(s, retry, armed); Sane(t) && (Orderly(t) ==> Awake(t))
  {
  }

  lemma FinishedMoves(s: State, t: State, e: FireEnv)
    requires Entering(s) && !s.servicing && (Orderly(s) ==> !Handing(s))
    requires Fired(s, t) && (t.radio.phase.Failed? ==> t.fault)
    ensures Moved(s, Finished(t, e))
  {
    WorkedWorks(t, e);
    ConcludedSane(Worked(t, e), e.retry, e.armed);
  }

  lemma FireMoves(s: State, e: FireEnv)
    requires Entering(s) && (Orderly(s) ==> !Handing(s))
    ensures Moved(s, TimerFired(s, e))
    decreases e, 1
  {
    if !s.servicing {
      var t := Spent(s);
      if s.active {
        ConsumedMoves(s, t, e);
      }
    }
  }

  lemma ServingFires(s: State, t: State)
    requires Entering(s) && s.active && !s.servicing && t == Spent(s) && (Orderly(s) ==> !Handing(s))
    ensures Fired(s, Serving(t))
  {
    var a := Serving(t);
    assert a == s.(timers := a.timers, servicing := true, log := a.log) && Follows(a.timers);
  }

  lemma ConsumedMoves(s: State, t: State, e: FireEnv)
    requires Entering(s) && s.active && !s.servicing && (Orderly(s) ==> !Handing(s))
    requires t == Spent(s)
    ensures Moved(s, Serviced(t, e))
    decreases e, 0
  {
    var a := Serving(t);
    ServingFires(s, t);
    RelaunchedFires(s, a, e.launch);
    ServeFires(s, Relaunched(a, e.launch), e.service);
    JudgedFires(s, Serve(Relaunched(a, e.launch), e.service));
    FinishedMoves(s, Judged(Serve(Relaunched(a, e.launch), e.service)), e);
  }

  // -------------------------------------------------------------------------
  // The peer owner
  // -------------------------------------------------------------------------

  lemma PeersSetMoves(s: State, p: PeerOwner)
    requires Sane(s)
    ensures Moved(s, SetPeers(s, p))
  {
  }

  lemma {:induction false} PeersDriveMoves(s: State, replies: seq<PeerReply>)
    requires Sane(s)
    ensures Moved(s, PeersDrive(s, replies))
    decreases replies, 0
  {
    if s.peers.pc.Done? {
    } else if replies == [] {
      PeersSetMoves(s, P.Drive(s.peers, []));
    } else {
      var t := Run(s, replies[0].ops);
      RunMoves(s, replies[0].ops);
      if !t.peers.pc.Done? {
        ResumedMoves(s, t, replies);
      }
    }
  }

  lemma ResumedMoves(s: State, t: State, replies: seq<PeerReply>)
    requires replies != [] && Moved(s, t) && !t.peers.pc.Done?
    ensures Moved(s, PeersDrive(PeersResume(t, replies[0].result), replies[1..]))
    decreases replies, 0, 0
  {
    var u := PeersResume(t, replies[0].result);
    PeersSetMoves(t, u.peers);
    PeersDriveMoves(u, replies[1..]);
    MovesOn(s, t, u);
    MovesOn(s, u, PeersDrive(u, replies[1..]));
  }

  lemma PeersCallMoves(s: State, r: P.Request, replies: seq<PeerReply>)
    requires Sane(s)
    ensures Moved(s, PeersCall(s, r, replies))
    decreases replies, 1
  {
    var t := PeersBegin(s, r);
    PeersSetMoves(s, t.peers);
    PeersDriveMoves(t, replies);
    MovesOn(s, t, PeersDrive(t, replies));
  }

  // -------------------------------------------------------------------------
  // Every call
  // -------------------------------------------------------------------------

  /** Calls that need not settle a revocation, once they are noted. */
  lemma PerformMoves(s: State, op: Op)
    requires Entering(s) && OnRadio(op) && !CallOf(op).Disabling? && !op.Close? && !op.Revoke?
    requires !ConductOf(s.log).owing && (op.Fire? && Orderly(s) ==> !Handing(s))
    ensures Moved(s, Perform(s, op))
    decreases op, 0
  {
    match op
    case OpenBackend(mac, native, added, inited) => OpenMoves(s, mac, native, added, inited);
    case Activate(on, e) =>
      if s.owns && s.attached && !s.active && !s.fault && e.ready {
        EnableMoves(s, e);
      }
    case Request(version, edit, e) => RequestMoves(s, version, edit, e);
    case SetAddress(mac, quiesced, added, inited) => ReaddressMoves(s, mac, quiesced, added, inited);
    case Transmit(frame, now, armed) => TransmitMoves(s, frame, now, armed);
    case Fire(e) => FireMoves(s, e);
  }

  lemma DisablingStep(s: State, op: Op)
    requires Sane(s) && op.Activate? && !op.on
    ensures Moved(s, Step(s, op))
    decreases op, 0
  {
    var q := Noted(s, op);
    assert Step(s, op) == ActivateWith(q, false, op.activation);
    if s.owns && s.attached {
      DisableMoves(s, op);
      assert ActivateWith(q, false, op.activation) == Disable(q, op.activation);
    } else {
      DisableRefused(s, op);
    }
  }

  lemma ClosingStep(s: State, op: Op)
    requires Sane(s) && op.Close?
    ensures Moved(s, Step(s, op))
    decreases op, 0
  {
    CloseMoves(s, op);
    assert Step(s, op) == CloseWith(Noted(s, op), op.stop, op.quiesced);
  }

  lemma StepMoves(s: State, op: Op)
    requires Sane(s)
    ensures Moved(s, Step(s, op))
    decreases op, 1
  {
    if op.PeerCall? {
      PeersCallMoves(s, op.request, op.replies);
    } else if op.Report? {
      ReportMoves(s);
    } else if op.Revoke? {
      RevokeMoves(s);
    } else if CallOf(op).Disabling? {
      DisablingStep(s, op);
    } else if op.Close? {
      ClosingStep(s, op);
    } else {
      NotedMoves(s, op);
      PerformMoves(Noted(s, op), op);
      MovesOn(s, Noted(s, op), Step(s, op));
    }
  }

  lemma {:induction false} RunMoves(s: State, ops: seq<Op>)
    requires Sane(s)
    ensures Moved(s, Run(s, ops))
    decreases ops, 0
  {
    if ops != [] {
      StepMoves(s, ops[0]);
      RunMoves(Step(s, ops[0]), ops[1..]);
      MovesOn(s, Step(s, ops[0]), Run(s, ops));
    }
  }
}
