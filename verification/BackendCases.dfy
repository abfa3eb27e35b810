/** Two orderly runs that show why the conditions of the backend's laws are needed. */
module BackendCases {
  import opened Common
  import opened AwdlSettings
  import opened Backend
  import opened BackendRadio
  import opened BackendTheorems
  import P = Peers

  const CHANNEL_SIX: set<nat> := {2437}
  const HERE: Address := 0x02_0000_0000_01
  const THERE: Address := 0x02_0000_0000_02

  const HOME := Homing(true, true, Arming(50, true))
  const NO_EVENT := Handoff(true, [])
  const STOP := Halt(true, NO_EVENT, HOME)
  const LAUNCH := Launch(true, true, 10, 10, true)
  const APPLY := ApplyEnv(STOP, LAUNCH, 20, true)
  const ENABLE := ActivateEnv(true, true, STOP, LAUNCH, true)
  const ENTRY := Entry(true, NO_EVENT, Arming(30, true), NO_EVENT, HOME, STOP)
  const PLAN := Book(Arming(25, true), Leased(Enter(ENTRY)), STOP)
  const SERVICE := Service(true, None, NO_EVENT, HOME, GiveUp(HOME), PLAN, STOP)
  const FIRE := FireEnv(LAUNCH, SERVICE, 6, 0, [], [], 0, 0, true)

  // -------------------------------------------------------------------------
  // An open window
  // -------------------------------------------------------------------------

  predicate Ordinary(s: State) {
    Orderly(s) && !ConductOf(s.log).owing && !IsClosing(s) && !s.servicing && s.peers.pc.Done?
  }

  /** An open backend without fault whose settings are valid. */
  predicate IsOpen(s: State) {
    && Ordinary(s) && s.owns && s.attached && !s.fault && s.config.settings.parent.state == 1
    && Valid(s.config.settings, s.config.mac, s.domain) && |s.config.settings.channels.table| == TABLE
  }

  lemma SocialChannel()
    ensures Pick(SOCIAL, CHANNEL_SIX) != []
  {
    assert NumberAllowed(6, CHANNEL_SIX);
  }

  lemma Installs(s: State)
    requires s.domain == CHANNEL_SIX && Ordinary(s) && !s.fault && Pick(SOCIAL, CHANNEL_SIX) != []
    ensures IsOpen(Installed(Attached(s), HERE))
  {
    OpenedIsValid(HERE, CHANNEL_SIX);
  }

  lemma FirstOpen(s: State)
    requires s == Step(Start(CHANNEL_SIX), OpenBackend(HERE, true, true, true))
    ensures IsOpen(s) && !s.active && !s.config.settings.synchronize && s.config.mac == HERE
    ensures s.timers == REST && s.radio == Scheduler(Stopped, false, false, false)
  {
    var t := Noted(Start(CHANNEL_SIX), OpenBackend(HERE, true, true, true));
    SocialChannel();
    Installs(t);
    assert s == OpenWith(t, HERE, true, true, true);
    OpenIs(t);
  }

  lemma OpenIs(t: State)
    requires t.domain == CHANNEL_SIX && !t.owns && !t.attached && !t.fault && Pick(SOCIAL, CHANNEL_SIX) != []
    ensures OpenWith(t, HERE, true, true, true) == Installed(Attached(t), HERE)
  {
    assert Unicast(HERE);
  }

  /** Turning synchronization on or off while inactive changes the settings alone. */
  lemma InactiveEdit(s: State, on: bool)
    requires IsOpen(s) && !s.active && !Handing(s)
    ensures var t := Step(s, Request(0, EditEnabled(if on then 1 else 0), APPLY));
      && IsOpen(t) && !t.active && t.config.settings == s.config.settings.(synchronize := on)
      && t.config.mac == s.config.mac && t.timers == s.timers && t.radio == s.radio
  {
    var op := Request(0, EditEnabled(if on then 1 else 0), APPLY);
    var q, next := Noted(s, op), s.config.settings.(synchronize := on);
    StaysOpen(s, q);
    EditIs(s, on, q, next);
    Adopts(q, next);
  }

  lemma Adopts(q: State, next: Settings)
    requires IsOpen(q) && next == q.config.settings.(synchronize := next.synchronize)
    ensures var t := SetSettings(Adopted(q, next), next);
      && IsOpen(t) && t.active == q.active && t.config.settings == next
      && t.config.mac == q.config.mac && t.timers == q.timers && t.radio == q.radio
  {
    var t := SetSettings(Adopted(q, next), next);
    assert Ordinary(t) && Valid(next, t.config.mac, t.domain);
  }

  lemma EditIs(s: State, on: bool, q: State, next: Settings)
    requires IsOpen(s) && !s.active && next == s.config.settings.(synchronize := on)
    requires q == Noted(s, Request(0, EditEnabled(if on then 1 else 0), APPLY))
    ensures Step(s, Request(0, EditEnabled(if on then 1 else 0), APPLY)) == SetSettings(Adopted(q, next), next)
  {
    var edit := EditEnabled(if on then 1 else 0);
    assert Valid(next, q.config.mac, q.domain);
    assert Drafted(q.config.settings, edit, q.config.mac, q.domain) == Proposed(next);
    assert Step(s, Request(0, edit, APPLY)) == RequestWith(q, 0, edit, APPLY) == ApplySettings(q, next, APPLY);
  }

  lemma Launched(s: State)
    requires IsOpen(s) && !s.active && s.config.settings.synchronize && s.timers == REST
    requires s.radio == Scheduler(Stopped, false, false, false)
    ensures var t := Step(s, Activate(true, ENABLE));
      && IsOpen(t) && t.active && t.config == s.config && t.radio == Scheduler(Waiting, false, false, false)
  {
    var q := Noted(s, Activate(true, ENABLE));
    ActivateIs(s, ENABLE);
    Lit(q);
    StaysOpen(s, Light(Activated(q), LAUNCH));
  }

  lemma Lit(q: State)
    requires q.owns && q.attached && !q.active && !q.fault && q.config.settings.synchronize && q.timers == REST
    requires q.radio == Scheduler(Stopped, false, false, false)
    ensures ActivateWith(q, true, ENABLE) == Light(Activated(q), LAUNCH)
    ensures var t := Light(Activated(q), LAUNCH);
      && t == q.(active := true, timers := t.timers, radio := Scheduler(Waiting, false, false, false), log := t.log)
      && ConductOf(t.log) == ConductOf(q.log).(lapsed := false)
  {
    var t := Activated(q);
    assert Launching(t, LAUNCH).timers == Timers(11, 0, Idle);
    assert LaunchOk(t, LAUNCH);
    assert LaunchRadio(t, LAUNCH) == Rearm(Launching(t, LAUNCH), true);
  }

  /** The backend in an open window. */
  predicate InWindow(s: State) {
    && IsOpen(s) && s.active && s.config.settings.synchronize && s.config.mac == HERE
    && s.radio == Scheduler(Open, false, true, false)
  }

  lemma Opens(s: State)
    requires s.attached && s.radio == Scheduler(Waiting, false, false, false) && !s.fault
    ensures var t := Serve(s, SERVICE);
      && t.radio == Scheduler(Open, false, true, false) && t == s.(timers := t.timers, radio := t.radio)
  {
    var a := Arm(s, Arming(25, true));
    var b := a.(radio := Scheduler(Reserved, false, true, false));
    assert Serve(s, SERVICE) == Planned(s, PLAN) == Booked(a, PLAN.booking) == Arrive(b, Enter(ENTRY));
    assert Run(SetPhase(b, Starting), []) == SetPhase(b, Starting);
    assert OpenWindow(b, ENTRY) == Entered(SetPhase(b, Starting), ENTRY);
  }

  /** The rest of the timer handler changes the timer alone. */
  lemma HandlerEnds(s: State)
    requires s.active && s.radio.phase.Open?
    ensures var t := Finished(s, FIRE); t == s.(timers := t.timers, servicing := false)
  {
    assert SendActions(s, []) == s && SendData(s, [], 6, BUDGET) == s;
    assert Worked(s, FIRE) == s;
  }

  lemma Handles(s: State)
    requires s.active && !s.servicing && s.attached && !s.fault && s.radio == Scheduler(Waiting, false, false, false)
    ensures var t := TimerFired(s, FIRE);
      && t == s.(timers := t.timers, radio := Scheduler(Open, false, true, false), servicing := false, log := t.log)
      && ConductOf(t.log) == ConductOf(s.log).(lapsed := false)
  {
    var t := Serving(Spent(s));
    ServingIs(s, t);
    Opens(t);
    HandlerEnds(Serve(t, SERVICE));
    HandlerIs(s, t);
  }

  lemma ServingIs(s: State, t: State)
    requires t == Serving(Spent(s))
    ensures t == s.(timers := t.timers, servicing := true, log := t.log)
    ensures ConductOf(t.log) == ConductOf(s.log).(lapsed := false)
  {
  }

  lemma HandlerIs(s: State, t: State)
    requires s.active && !s.servicing && s.radio.phase.Waiting? && t == Serving(Spent(s))
    requires Serve(t, SERVICE).radio.phase.Open?
    ensures TimerFired(s, FIRE) == Finished(Serve(t, SERVICE), FIRE)
  {
    assert Relaunched(t, LAUNCH) == t;
    assert Serviced(Spent(s), FIRE) == Finished(Serve(t, SERVICE), FIRE);
  }

  lemma WindowOpens(s: State)
    requires IsOpen(s) && s.active && s.config.settings.synchronize && s.config.mac == HERE
    requires s.radio == Scheduler(Waiting, false, false, false)
    ensures InWindow(Step(s, Fire(FIRE)))
  {
    var q := Noted(s, Fire(FIRE));
    FireNoted(s, q);
    Handles(q);
    FireIs(s);
    StaysOpen(s, TimerFired(q, FIRE));
  }

  lemma FireNoted(s: State, q: State)
    requires IsOpen(s) && !Handing(s) && q == Noted(s, Fire(FIRE))
    ensures Ordinary(q) && q == s.(log := q.log)
  {
  }

  lemma FireIs(s: State)
    ensures Step(s, Fire(FIRE)) == TimerFired(Noted(s, Fire(FIRE)), FIRE)
  {
  }

  lemma StaysOpen(s: State, t: State)
    requires IsOpen(s) && Ordinary(t) && t.owns && t.attached && !t.fault && t.config == s.config
      && t.domain == s.domain
    ensures IsOpen(t)
  {
  }

  const BEGIN := [OpenBackend(HERE, true, true, true), Request(0, EditEnabled(1), APPLY), Activate(true, ENABLE),
                  Fire(FIRE)]

  lemma RunFour(s: State, a: Op, b: Op, c: Op, d: Op)
    ensures Run(s, [a, b, c, d]) == Step(Step(Step(Step(s, a), b), c), d)
  {
    assert [a, b, c, d][1..] == [b, c, d] && [b, c, d][1..] == [c, d] && [c, d][1..] == [d] && [d][1..] == [];
    assert Run(s, [a, b, c, d]) == Run(Step(s, a), [b, c, d]);
    assert Run(Step(s, a), [b, c, d]) == Run(Step(Step(s, a), b), [c, d]);
    RunTwo(Step(Step(s, a), b), c, d);
  }

  lemma RunTwo(s: State, a: Op, b: Op)
    ensures Run(s, [a, b]) == Step(Step(s, a), b)
  {
    assert [a, b][1..] == [b] && [b][1..] == [];
    assert Run(s, [a, b]) == Run(Step(s, a), [b]) == Run(Step(Step(s, a), b), []);
  }

  lemma WindowReached()
    ensures InWindow(Run(Start(CHANNEL_SIX), BEGIN))
  {
    var s := Step(Start(CHANNEL_SIX), BEGIN[0]);
    FirstOpen(s);
    InactiveEdit(s, true);
    var t := Step(s, BEGIN[1]);
    Launched(t);
    WindowOpens(Step(t, BEGIN[2]));
    RunFour(Start(CHANNEL_SIX), BEGIN[0], BEGIN[1], BEGIN[2], BEGIN[3]);
  }

  // -------------------------------------------------------------------------
  // An address changed inside a request
  // -------------------------------------------------------------------------

  const DISABLE := Activate(false, ENABLE)
  const MOVE := SetAddress(THERE, true, true, true)
  const INSIDE := [Revoke, DISABLE, MOVE]
  const NESTED := APPLY.(stop := Halt(true, Handoff(true, INSIDE), HOME))

  /** Inside the end of a window. */
  predicate Ends(s: State) {
    Orderly(s) && !IsClosing(s) && s.owns && s.attached && s.radio == Scheduler(Ending, true, true, false)
  }

  /** Disabling inside a window event is a fault. */
  lemma DisabledInside(s: State)
    requires Ends(s)
    ensures var t := Step(s, DISABLE);
      && Ends(t) && t.fault && !t.active && !ConductOf(t.log).owing && t.config == s.config && t.domain == s.domain
      && t.servicing == s.servicing
  {
    var q := Quitting(Noted(s, DISABLE));
    assert StopScheduler(q, STOP) == Stopping(q, true) && !StopOk(q, STOP);
    assert Step(s, DISABLE) == Disable(Noted(s, DISABLE), ENABLE) == Disabled(Stopping(q, true), false, true);
  }

  lemma MovedInside(s: State)
    requires Ends(s) && !s.active && !ConductOf(s.log).owing
    ensures var t := Step(s, MOVE);
      && Ends(t) && t.fault == s.fault && !t.active && t.config.mac == THERE && t.domain == s.domain
      && t.servicing == s.servicing
  {
    ThereIsUnicast();
    MoveIs(s, THERE);
    MovesThere(Noted(s, MOVE), THERE);
  }

  lemma ThereIsUnicast()
    ensures Unicast(THERE)
  {
  }

  lemma MoveIs(s: State, mac: Address)
    requires !s.active && s.owns && s.attached && Unicast(mac)
    ensures var op := SetAddress(mac, true, true, true); Step(s, op) == Clear(Renamed(Noted(s, op), mac))
  {
    var op := SetAddress(mac, true, true, true);
    ReaddressIs(s, op);
    Readdresses(Noted(s, op), mac);
  }

  lemma ReaddressIs(s: State, op: Op)
    requires op.SetAddress?
    ensures Step(s, op) == Readdress(Noted(s, op), op.mac, op.quiesced, op.added, op.inited)
  {
  }

  lemma Readdresses(q: State, mac: Address)
    requires !q.active && q.owns && q.attached && Unicast(mac)
    ensures Readdress(q, mac, true, true, true) == Clear(Renamed(q, mac))
  {
  }

  lemma MovesThere(q: State, mac: Address)
    requires Ends(q)
    ensures var t := Clear(Renamed(q, mac));
      && Ends(t) && t.fault == q.fault && t.active == q.active && t.config.mac == mac && t.domain == q.domain
      && t.servicing == q.servicing
  {
  }

  lemma InsideRuns(s: State)
    requires Ends(s) && !ConductOf(s.log).owing
    ensures var t := Run(s, INSIDE); Ends(t) && t.fault && !t.active && t.config.mac == THERE && t.domain == s.domain
  {
    var r := Step(s, Revoke);
    assert r == Deactivated(Noted(s, Revoke));
    DisabledInside(r);
    MovedInside(Step(r, DISABLE));
    assert INSIDE[1..] == [DISABLE, MOVE];
    assert Run(s, INSIDE) == Run(r, [DISABLE, MOVE]);
    RunTwo(r, DISABLE, MOVE);
  }

  lemma NestedStop(s: State)
    requires Orderly(s) && !IsClosing(s) && !ConductOf(s.log).owing && s.owns && s.attached
    requires s.radio == Scheduler(Open, false, true, false)
    ensures StopOk(s, NESTED.stop)
    ensures var t := StopScheduler(s, NESTED.stop);
      Orderly(t) && t.fault && !t.active && t.config.mac == THERE && t.domain == s.domain
  {
    var a := Stopping(s, true);
    var b := SetPhase(a, Ending);
    InsideRuns(b);
    var c := Ended(Run(b, INSIDE), true);
    assert EndWindow(a, NESTED.stop.end) == c;
    Homes(c);
    StopIs(s, NESTED.stop, a, c);
  }

  /** Giving back a radio that was restored ends a stop. */
  lemma Homes(s: State)
    requires s.radio.stopping && !s.radio.reset
    ensures HomeOk(s, HOME) && var t := ReturnHome(s, HOME);
      && t == s.(timers := t.timers, radio := Scheduler(Stopped, true, false, false))
      && t.timers == Cancel(s, true).timers
  {
  }

  lemma StopIs(s: State, e: Halt, a: State, c: State)
    requires a == Stopping(s, e.cancelled) && s.radio.phase.Open? && c == EndWindow(a, e.end)
    ensures StopScheduler(s, e) == ReturnHome(c, e.home) && StopOk(s, e) == HomeOk(c, e.home)
  {
  }

  const SWITCH := Request(0, EditEnabled(0), NESTED)

  lemma Switches(q: State, next: Settings, t: State)
    requires q.owns && !q.fault && Valid(next, q.config.mac, q.domain) && TurnsOff(q, next)
    requires StopOk(q, NESTED.stop) && t == StopScheduler(q, NESTED.stop) && !t.active
    ensures ApplyStatus(q, next, NESTED) == Success
    ensures ApplySettings(q, next, NESTED) == SetSettings(Adopted(t, next), next)
  {
    var u := Adopted(t, next);
    assert Quieted(q, next, NESTED) == t;
    assert Restarted(u, next, NESTED) == SetSettings(u, next);
  }

  /** Settings whose parent is the old address are applied under the new one: the request
      succeeds, in a backend that has faulted meanwhile. */
  lemma AppliedElsewhere(s: State)
    requires InWindow(s)
    ensures var next := s.config.settings.(synchronize := false);
      ApplyStatus(Noted(s, SWITCH), next, NESTED) == Success
    ensures var t := Step(s, SWITCH); Orderly(t) && t.fault && !Proper(t)
  {
    var q, next := Noted(s, SWITCH), s.config.settings.(synchronize := false);
    SwitchIs(s, q, next);
    NestedStop(q);
    var t := StopScheduler(q, NESTED.stop);
    Switches(q, next, t);
    assert next.parent.master == HERE && !Unset(next);
  }

  lemma SwitchIs(s: State, q: State, next: Settings)
    requires InWindow(s) && q == Noted(s, SWITCH) && next == s.config.settings.(synchronize := false)
    ensures Valid(next, q.config.mac, q.domain) && TurnsOff(q, next)
    ensures Step(s, SWITCH) == ApplySettings(q, next, NESTED)
  {
    assert Drafted(q.config.settings, EditEnabled(0), q.config.mac, q.domain) == Proposed(next);
    assert Step(s, SWITCH) == RequestWith(q, 0, EditEnabled(0), NESTED);
  }

  lemma ReentryMayInvalidateSettings()
    ensures var t := Step(Run(Start(CHANNEL_SIX), BEGIN), SWITCH); Orderly(t) && t.fault && !Proper(t)
  {
    WindowReached();
    AppliedElsewhere(Run(Start(CHANNEL_SIX), BEGIN));
  }

  // -------------------------------------------------------------------------
  // A deadline without a timer
  // -------------------------------------------------------------------------

  /** An activation that finds the radio unprepared and is refused its timer. */
  const REFUSED := Activate(true, ENABLE.(launch := Launch(false, true, 10, 10, false)))
  const QUIT := Activate(false, ENABLE.(stop := Halt(true, Handoff(true, [REFUSED]), HOME)))
  const LAPSE := [Revoke, QUIT, Request(0, EditEnabled(0), APPLY), Activate(true, ENABLE)]

  lemma RefusedInside(s: State)
    requires Ends(s) && !s.active && !s.fault && s.config.settings.synchronize && !ConductOf(s.log).owing
    ensures var t := Run(s, [REFUSED]);
      && Ends(t) && !t.active && !t.fault && t.config == s.config && t.domain == s.domain && t.servicing == s.servicing
      && t.peers == s.peers && t.timers.pump == 10 + RETRY && !ConductOf(t.log).owing
  {
    RunOne(s, REFUSED);
    RefusedIs(s, REFUSED.activation);
    Refuses(Noted(s, REFUSED), REFUSED.activation.launch);
  }

  lemma RunOne(s: State, a: Op)
    ensures Run(s, [a]) == Step(s, a)
  {
    assert [a][1..] == [];
    assert Run(s, [a]) == Run(Step(s, a), []);
  }

  lemma RefusedIs(s: State, e: ActivateEnv)
    requires s.owns && s.attached && !s.active && !s.fault && s.config.settings.synchronize && Handing(s)
    requires e.ready && e.received && !e.launch.prepared && !e.launch.armed
    ensures var q := Noted(s, Activate(true, e));
      Step(s, Activate(true, e)) == Light(Activated(q), e.launch).(active := false).Log(Stranded)
  {
    ActivateIs(s, e);
    Strands(Noted(s, Activate(true, e)), e);
  }

  lemma Strands(q: State, e: ActivateEnv)
    requires q.owns && q.attached && !q.active && !q.fault && q.config.settings.synchronize && Handing(q)
    requires e.ready && e.received && !e.launch.prepared && !e.launch.armed
    ensures ActivateWith(q, true, e) == Light(Activated(q), e.launch).(active := false).Log(Stranded)
  {
    assert !LaunchOk(Activated(q), e.launch);
    assert ActivateWith(q, true, e) == Enable(q, e);
  }

  lemma Refuses(q: State, l: Launch)
    requires Ends(q) && !q.active && !ConductOf(q.log).owing && !l.prepared
    ensures var t := Light(Activated(q), l).(active := false).Log(Stranded);
      && Ends(t) && t.fault == q.fault && t.config == q.config && t.domain == q.domain && t.servicing == q.servicing
      && t.peers == q.peers && t.timers.pump == l.now + RETRY && !ConductOf(t.log).owing && !t.active
  {
    Rests(q, l);
    var t := LaunchRadio(Activated(q), l);
    StrandedConduct(q.log);
    assert Light(Activated(q), l).(active := false).Log(Stranded)
        == q.(timers := t.timers, log := (q.log + [TimerRenewed]) + [Stranded]);
  }

  lemma Rests(q: State, l: Launch)
    requires !l.prepared
    ensures var t := LaunchRadio(Activated(q), l);
      t == q.(active := true, timers := t.timers) && t.timers.pump == l.now + RETRY
  {
  }

  lemma StrandedConduct(log: seq<Event>)
    ensures ConductOf((log + [TimerRenewed]) + [Stranded]) == ConductOf(log).(lapsed := true)
  {
    ConductAfter(log, TimerRenewed);
    ConductAfter(log + [TimerRenewed], Stranded);
  }

  lemma ConductAfter(log: seq<Event>, e: Event)
    ensures ConductOf(log + [e]) == NoteConduct(ConductOf(log), e)
  {
    assert (log + [e])[..|log|] == log;
  }

  lemma QuitStops(q: State)
    requires Orderly(q) && !IsClosing(q) && !ConductOf(q.log).owing && q.owns && q.attached && !q.active && !q.fault
    requires q.radio == Scheduler(Open, false, true, false) && q.config.settings.synchronize
    ensures var e := QUIT.activation.stop; StopOk(q, e) && var d := StopScheduler(q, e);
      && Orderly(d) && !IsClosing(d) && !ConductOf(d.log).owing && d.owns && d.attached && !d.active && !d.fault
      && d.config == q.config && d.domain == q.domain && d.servicing == q.servicing && d.peers == q.peers
      && d.radio == Scheduler(Stopped, true, false, false) && d.timers == Timers(0, 10 + RETRY, Idle)
  {
    var e := QUIT.activation.stop;
    var a := Stopping(q, true);
    var b := SetPhase(a, Ending);
    RefusedInside(b);
    var c := Ended(Run(b, [REFUSED]), true);
    assert EndWindow(a, e.end) == c;
    Homes(c);
    StopIs(q, e, a, c);
  }

  lemma Lapses(s: State)
    requires InWindow(s)
    ensures var t := Step(Step(s, Revoke), QUIT);
      && IsOpen(t) && !t.active && t.config == s.config && !Handing(t) && t.timers == Timers(0, 10 + RETRY, Idle)
  {
    var r := Step(s, Revoke);
    RevokeIs(s);
    var q := Quitting(Noted(r, QUIT));
    QuitBegins(s, r, q);
    QuitStops(q);
    var d := StopScheduler(q, QUIT.activation.stop);
    QuitIs(r, q, d);
    var t := Rearm(Clear(d), true);
    assert t.timers == d.timers;
    StaysOpen(s, t);
  }

  lemma RevokeIs(s: State)
    ensures Step(s, Revoke) == Deactivated(Noted(s, Revoke))
  {
  }

  lemma QuitBegins(s: State, r: State, q: State)
    requires InWindow(s) && r == Deactivated(Noted(s, Revoke)) && q == Quitting(Noted(r, QUIT))
    ensures Orderly(q) && !IsClosing(q) && !ConductOf(q.log).owing && q.owns && q.attached && !q.active && !q.fault
    ensures q.radio == s.radio && q.config == s.config && q.domain == s.domain && !q.servicing && q.peers == s.peers
  {
  }

  lemma QuitIs(r: State, q: State, d: State)
    requires r.owns && r.attached && q == Quitting(Noted(r, QUIT))
    requires StopOk(q, QUIT.activation.stop) && d == StopScheduler(q, QUIT.activation.stop)
    ensures Step(r, QUIT) == Rearm(Clear(d), true)
  {
    assert Step(r, QUIT) == ActivateWith(Noted(r, QUIT), false, QUIT.activation);
  }

  /** An activation without synchronization leaves the timer as it is. */
  lemma Wakes(s: State)
    requires IsOpen(s) && !s.active && !s.config.settings.synchronize && !Handing(s)
    ensures var t := Step(s, Activate(true, ENABLE)); Orderly(t) && t.active && t.timers == s.timers
  {
    var q := Noted(s, Activate(true, ENABLE));
    ActivateIs(s, ENABLE);
    assert ActivateWith(q, true, ENABLE) == Activated(q).Log(Enabled(Handing(q)));
  }

  lemma WakesUnarmed(s: State)
    requires IsOpen(s) && !s.active && !Handing(s) && s.timers == Timers(0, 10 + RETRY, Idle)
    ensures var t := Step(Step(s, Request(0, EditEnabled(0), APPLY)), Activate(true, ENABLE));
      Orderly(t) && t.active && t.timers.timer == Idle && Wanted(t.timers).Armed?
  {
    InactiveEdit(s, false);
    Wakes(Step(s, Request(0, EditEnabled(0), APPLY)));
  }

  /** Activated again, the backend has a deadline for which no timer is armed. */
  lemma RefusedActivationLosesAWakeup()
    ensures var s := Run(Run(Start(CHANNEL_SIX), BEGIN), LAPSE);
      Orderly(s) && s.active && s.timers.timer == Idle && Wanted(s.timers).Armed?
  {
    WindowReached();
    var s := Run(Start(CHANNEL_SIX), BEGIN);
    var t := Step(Step(s, Revoke), QUIT);
    Lapses(s);
    WakesUnarmed(t);
    RunFour(s, LAPSE[0], LAPSE[1], LAPSE[2], LAPSE[3]);
  }
}
