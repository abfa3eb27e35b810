/** What every backend operation keeps, however deep the calls nest. */
module BackendProof {
  import opened Common
  import opened AwdlSettings
  import opened Backend
  import P = Peers
  import PP = PeersProof

  /** The queue holds what entered and has not left, in order. */
  predicate QueueInv(s: State, b: Traffic) {
    b.lawful && |s.data| <= CAPACITY && b.entered == b.left + s.data && b.counter == s.counter
  }

  predicate Good(settings: Settings, domain: set<nat>) {
    Settled(settings) && PlanAllowed(settings.channels, domain)
  }

  predicate ConfigInv(s: State, b: Health) {
    && (Unset(s.config.settings) || Good(s.config.settings, s.domain))
    && (b.isOpen ==> Good(s.config.settings, s.domain))
  }

  predicate HealthInv(s: State, b: Health) {
    b.quiet && b.sound && b.faulted == s.fault
  }

  predicate Inv(s: State) {
    && QueueInv(s, TrafficOf(s.log))
    && HealthInv(s, HealthOf(s.log)) && ConfigInv(s, HealthOf(s.log))
    && s.config.mac == ConductOf(s.log).address
    && PP.At(s.peers)
  }

  /** What no operation undoes. */
  predicate Continues(s: State, t: State) {
    t.domain == s.domain && (s.fault ==> t.fault) && s.log <= t.log
  }

  predicate Kept(s: State, t: State) {
    Inv(t) && Continues(s, t)
  }

  lemma StartHolds(domain: set<nat>)
    ensures Inv(Start(domain))
  {
    PP.StartRests();
    assert TrafficOf(Start(domain).log).left + Start(domain).data == [];
  }

  // -------------------------------------------------------------------------
  // Pieces
  // -------------------------------------------------------------------------

  /** Nothing changed but flags, deadlines and the scheduler. */
  predicate SameCore(s: State, t: State) {
    && t.domain == s.domain && t.fault == s.fault && t.config == s.config && t.peers == s.peers
    && t.data == s.data && t.counter == s.counter && t.log == s.log
  }

  lemma SameKeeps(s: State, t: State)
    requires Inv(s) && SameCore(s, t)
    ensures Kept(s, t)
  {
  }

  lemma FaultKeeps(s: State)
    requires Inv(s)
    ensures Kept(s, Fault(s)) && Fault(s).fault
  {
  }

  lemma ClearKeeps(s: State)
    requires Inv(s)
    ensures Kept(s, Clear(s))
  {
    assert TrafficOf(s.log).left + s.data + [] == TrafficOf(s.log).left + s.data;
  }

  lemma QueuedKeeps(s: State, slot: Slot)
    requires Inv(s) && |s.data| < CAPACITY
    ensures Kept(s, Queued(s, slot))
  {
    var b := TrafficOf(s.log);
    assert (b.left + s.data) + [slot] == b.left + (s.data + [slot]);
  }

  /** Events that only say how the backend was used. */
  predicate Aside(e: Event) {
    e.Called? || e.Stranded? || e.Silenced? || e.Enabled? || e.TimerRenewed?
  }

  lemma AsideKeeps(s: State, e: Event)
    requires Inv(s) && Aside(e)
    ensures Kept(s, s.Log(e))
  {
  }

  // -------------------------------------------------------------------------
  // The peer owner
  // -------------------------------------------------------------------------

  lemma PeersSetKeeps(s: State, p: PeerOwner)
    requires Inv(s) && PP.At(p)
    ensures Kept(s, SetPeers(s, p))
  {
  }

  lemma PeersBeginKeeps(s: State, r: P.Request)
    requires Inv(s)
    ensures Kept(s, PeersBegin(s, r))
  {
    if s.peers.pc.Done? {
      PP.BeginKeeps(s.peers.state, r);
    } else {
      PP.ReentryKeeps(s.peers, r);
    }
  }

  lemma PeersResumeKeeps(s: State, result: P.PeerResult)
    requires Inv(s) && !s.peers.pc.Done?
    ensures Kept(s, PeersResume(s, result))
  {
    PP.ResumeKeeps(s.peers, result);
    PeersSetKeeps(s, PeersResume(s, result).peers);
  }

  lemma PeersFinishKeeps(s: State)
    requires Inv(s)
    ensures Kept(s, SetPeers(s, P.Drive(s.peers, [])))
  {
    PP.DriveKeeps(s.peers, []);
    PeersSetKeeps(s, P.Drive(s.peers, []));
  }

  /** A peer found authorized was added by the hardware, is not being removed, and the owner has
      met no failure. */
  lemma AuthorizedStands(p: P.Point, a: Address)
    requires PP.At(p) && P.Authorized(p.state, a)
    ensures P.Latest(p.state.log, a) == Some(P.Ended(a, true, P.Ok)) && !P.Faulted(p.state.log)
  {
    if p.pc.Done? {
      PP.BeginKeeps(p.state, P.Ask(a));
    } else {
      PP.AskedAt(p, a);
    }
    P.Logged(p.state.log, P.Asked(a, true));
  }

  // -------------------------------------------------------------------------
  // The transmit loop
  // -------------------------------------------------------------------------

  lemma ActionKeeps(s: State, a: Action)
    requires Inv(s)
    ensures Kept(s, SendAction(s, a))
  {
  }

  lemma {:induction false} ActionsKeep(s: State, actions: seq<Action>)
    requires Inv(s)
    ensures Kept(s, SendActions(s, actions))
    decreases |actions|
  {
    if actions != [] {
      ActionKeeps(s, actions[0]);
      ActionsKeep(SendAction(s, actions[0]), actions[1..]);
    }
  }

  lemma HeadLeaves(s: State)
    requires Inv(s) && s.data != []
    ensures var b := TrafficOf(s.log); b.entered == (b.left + [s.data[0]]) + s.data[1..]
  {
    var b := TrafficOf(s.log);
    assert (b.left + [s.data[0]]) + s.data[1..] == b.left + s.data;
  }

  lemma ExpiredKeeps(s: State, now: nat)
    requires Inv(s) && s.data != [] && !Fresh(s.data[0], now)
    ensures var t := Drop(s, Expired(s.data[0], now)); Kept(s, t)
  {
    HeadLeaves(s);
  }

  lemma UnencodableKeeps(s: State)
    requires Inv(s) && s.data != []
    ensures var t := Drop(s, Unencodable(s.data[0])); Kept(s, t)
  {
    HeadLeaves(s);
  }

  lemma SendKeeps(s: State, turn: Turn, channel: nat)
    requires Inv(s) && s.data != [] && Fresh(s.data[0], turn.now) && Ready(s, turn, channel)
    ensures Kept(s, Send(s, turn, channel))
  {
    var standing := StandingOf(s, s.data[0].frame.target);
    if !Group(s.data[0].frame.target) {
      AuthorizedStands(s.peers, s.data[0].frame.target);
    }
    AcceptedKeeps(s, turn, channel, standing);
  }

  lemma AcceptedKeeps(s: State, turn: Turn, channel: nat, standing: Standing)
    requires Inv(s) && s.data != [] && !s.fault && MayGo(s.data[0], turn, channel, standing)
    ensures var t := Drop(s, Accepted(s.data[0], turn, channel, s.counter, standing));
      Kept(s, t.(counter := (s.counter + 1) % COUNTERS))
  {
    HeadLeaves(s);
  }

  lemma TurnKeeps(s: State, turn: Turn, channel: nat)
    requires Inv(s) && s.data != [] && TakeTurn(s, turn, channel).Some?
    ensures var t := TakeTurn(s, turn, channel).value; Kept(s, t)
  {
    if !Fresh(s.data[0], turn.now) {
      ExpiredKeeps(s, turn.now);
    } else if !turn.encodes {
      UnencodableKeeps(s);
    } else {
      SendKeeps(s, turn, channel);
    }
  }

  lemma {:induction false} DataKeeps(s: State, turns: seq<Turn>, channel: nat, budget: nat)
    requires Inv(s)
    ensures Kept(s, SendData(s, turns, channel, budget))
    decreases budget
  {
    if budget != 0 && turns != [] && s.active && s.data != [] && TakeTurn(s, turns[0], channel).Some? {
      TurnKeeps(s, turns[0], channel);
      DataKeeps(TakeTurn(s, turns[0], channel).value, turns[1..], channel, budget - 1);
    }
  }

  lemma ServeTransmitKeeps(s: State, e: FireEnv)
    requires Inv(s)
    ensures Kept(s, ServeTransmit(s, e))
  {
    ActionsKeep(s, e.actions);
    DataKeeps(SendActions(s, e.actions), e.turns, e.channel, BUDGET);
  }

  lemma FinishedKeeps(s: State, e: FireEnv)
    requires Inv(s)
    ensures Kept(s, Finished(s, e))
  {
    ServeTransmitKeeps(s, e);
    SameKeeps(Worked(s, e), Finished(s, e));
  }

  // -------------------------------------------------------------------------
  // Operations without call-outs
  // -------------------------------------------------------------------------

  lemma OpenKeeps(s: State, mac: Address, native: bool, added: bool, inited: bool)
    requires Inv(s)
    ensures Kept(s, OpenWith(s, mac, native, added, inited))
  {
    if OpenStatus(s, mac, native, added, inited) == Success {
      InstalledKeeps(Attached(s), mac);
    }
  }

  lemma InstalledKeeps(s: State, mac: Address)
    requires Inv(s) && Pick(SOCIAL, s.domain) != []
    ensures Kept(s, Installed(s, mac))
  {
    OpenedIsValid(mac, s.domain);
    assert Good(Opened(mac, s.domain), s.domain);
  }

  lemma LightKeeps(s: State, l: Launch)
    requires Inv(s)
    ensures Kept(s, Light(s, l))
  {
    var t := LaunchRadio(s, l);
    SameKeeps(s, t);
    AsideKeeps(t, TimerRenewed);
    KeptOn(s, t, t.Log(TimerRenewed));
  }

  lemma EnableKeeps(s: State, e: ActivateEnv)
    requires Inv(s)
    ensures Kept(s, Enable(s, e))
  {
    var a := Activated(s);
    SameKeeps(s, a);
    if !s.config.settings.synchronize {
      AsideKeeps(a, Enabled(Handing(s)));
    } else {
      LightKeeps(a, e.launch);
      KeptOn(s, a, Light(a, e.launch));
      UnlaunchedKeeps(s, Light(a, e.launch), e.launch);
    }
  }

  lemma UnlaunchedKeeps(s: State, t: State, l: Launch)
    requires Kept(s, t)
    ensures Kept(s, Unlaunched(t.(active := false), l))
  {
    SameKeeps(t, t.(active := false));
    AsideKeeps(t.(active := false), Stranded);
    KeptOn(s, t, Unlaunched(t.(active := false), l));
  }

  lemma RenamedKeeps(s: State, mac: Address)
    requires Inv(s)
    ensures Kept(s, Renamed(s, mac))
  {
  }

  lemma ReaddressKeeps(s: State, mac: Address, quiesced: bool, added: bool, inited: bool)
    requires Inv(s)
    ensures Kept(s, Readdress(s, mac, quiesced, added, inited))
  {
    FaultKeeps(s);
    FaultKeeps(s.(owns := false));
    RenamedKeeps(s, mac);
    ClearKeeps(Renamed(s, mac));
  }

  lemma TransmitKeeps(s: State, frame: Frame, now: nat, armed: bool)
    requires Inv(s)
    ensures Kept(s, TransmitFrame(s, frame, now, armed))
  {
    if Admits(s, frame) {
      QueuedKeeps(s, Slot(frame, now));
      SameKeeps(Queued(s, Slot(frame, now)), TransmitFrame(s, frame, now, armed));
    }
  }

  lemma ReportKeeps(s: State)
    requires Inv(s)
    ensures Kept(s, ReportSettings(s))
  {
  }

  lemma RelaunchedKeeps(s: State, l: Launch)
    requires Inv(s)
    ensures Kept(s, Relaunched(s, l))
  {
    SameKeeps(s, LaunchRadio(s, l));
    FaultKeeps(LaunchRadio(s, l));
  }

  lemma SettingsKeep(s: State, next: Settings)
    requires Inv(s) && Good(next, s.domain)
    ensures Kept(s, SetSettings(s, next))
  {
  }

  lemma PumpedKeeps(s: State, deadline: nat, armed: bool)
    requires Inv(s)
    ensures Kept(s, Pumped(s, deadline, armed))
  {
    var t := Rearm(SetPump(s, deadline), armed);
    SameKeeps(s, t);
    AsideKeeps(t, TimerRenewed);
    FaultKeeps(t.Log(TimerRenewed));
    KeptOn(s, t, Pumped(s, deadline, armed));
  }

  lemma CommittedKeeps(s: State, next: Settings, e: ApplyEnv)
    requires Inv(s) && Good(next, s.domain)
    ensures Kept(s, Committed(s, next, e))
  {
    SettingsKeep(s, next);
    PumpedSettingsKeep(s, SetSettings(s, next), e.now + 1, e.armed);
    CommittedIs(s, next, e);
  }

  lemma CommittedIs(s: State, next: Settings, e: ApplyEnv)
    ensures var t := SetSettings(s, next);
      Committed(s, next, e) == t || Committed(s, next, e) == Pumped(t, e.now + 1, e.armed)
  {
  }

  lemma PumpedSettingsKeep(s: State, t: State, deadline: nat, armed: bool)
    requires Kept(s, t)
    ensures Kept(s, Pumped(t, deadline, armed))
  {
    PumpedKeeps(t, deadline, armed);
    KeptOn(s, t, Pumped(t, deadline, armed));
  }

  lemma KeptOn(s: State, t: State, u: State)
    requires Kept(s, t) && Kept(t, u)
    ensures Kept(s, u)
  {
  }

  lemma RestartedKeeps(s: State, next: Settings, e: ApplyEnv)
    requires Inv(s) && Good(next, s.domain)
    ensures Kept(s, Restarted(s, next, e))
  {
    var t := Light(s, e.launch);
    LightKeeps(s, e.launch);
    if !TurnsOn(s, next) {
      CommittedKeeps(s, next, e);
    } else if LaunchOk(s, e.launch) {
      CommittedKeeps(t, next, e);
      KeptOn(s, t, Committed(t, next, e));
    } else {
      FaultKeeps(t);
      KeptOn(s, t, Fault(t));
    }
  }

  lemma ReleasedKeeps(s: State, quiesced: bool)
    requires Inv(s)
    ensures Kept(s, Released(s, quiesced))
  {
    var t := if s.owns && !quiesced then Fault(s) else s;
    FaultKeeps(s);
    DetachedKeeps(t);
    KeptOn(s, t, SetSettings(Clear(Detached(t)), BLANK).Log(Closed));
  }

  lemma DetachedKeeps(s: State)
    requires Inv(s)
    ensures Kept(s, SetSettings(Clear(Detached(s)), BLANK).Log(Closed))
  {
    var d := Detached(s);
    SameKeeps(s, d);
    ClearKeeps(d);
    KeptOn(s, d, Clear(d));
    ForgottenKeeps(Clear(d));
    KeptOn(s, Clear(d), SetSettings(Clear(d), BLANK).Log(Closed));
  }

  lemma ForgottenKeeps(s: State)
    requires Inv(s)
    ensures Kept(s, SetSettings(s, BLANK).Log(Closed))
  {
  }

  // -------------------------------------------------------------------------
  // The scheduler
  // -------------------------------------------------------------------------

  lemma EndWindowKeeps(s: State, h: Handoff)
    requires Inv(s)
    ensures Kept(s, EndWindow(s, h))
    decreases h, 0
  {
    if s.radio.phase.Open? {
      SameKeeps(s, SetPhase(s, Ending));
      RunKeeps(SetPhase(s, Ending), h.ops);
      SameKeeps(Run(SetPhase(s, Ending), h.ops), EndWindow(s, h));
    }
  }

  /** Ending the window and giving the radio back. */
  lemma EndedHomeKeeps(s: State, h: Handoff, home: Homing)
    requires Inv(s)
    ensures Kept(s, ReturnHome(EndWindow(s, h), home))
    decreases h, 1
  {
    EndWindowKeeps(s, h);
    SameKeeps(EndWindow(s, h), ReturnHome(EndWindow(s, h), home));
  }

  lemma HomeKeeps(s: State, h: Homing)
    requires Inv(s)
    ensures Kept(s, ReturnHome(s, h))
  {
    SameKeeps(s, ReturnHome(s, h));
  }

  lemma StopKeeps(s: State, e: Halt)
    requires Inv(s)
    ensures Kept(s, StopScheduler(s, e))
    decreases e, 1
  {
    var t := Stopping(s, e.cancelled);
    SameKeeps(s, t);
    EndedHomeKeeps(t, e.end, e.home);
  }

  lemma DeferredKeeps(s: State, a: Arming, halt: Halt)
    requires Inv(s)
    ensures Kept(s, Deferred(s, a, halt))
    decreases halt, 2
  {
    SameKeeps(s, Arm(s, a));
    StopKeeps(Arm(s, a), halt);
  }

  lemma EnteredKeeps(s: State, e: Entry)
    requires Inv(s)
    ensures Kept(s, Entered(s, e))
    decreases e, 0
  {
    SameKeeps(s, SetPhase(s, Reserved));
    SameKeeps(s, SetPhase(s, Open));
    if !e.start.taken {
      HomeKeeps(SetPhase(s, Reserved), e.home);
    } else if s.radio.stopping {
      EndedHomeKeeps(SetPhase(s, Open), e.end, e.home);
    } else {
      DeferredKeeps(SetPhase(s, Open), e.until, e.halt);
    }
  }

  lemma OpenWindowKeeps(s: State, e: Entry)
    requires Inv(s)
    ensures Kept(s, OpenWindow(s, e))
    decreases e, 1
  {
    if !e.opens || s.fault {
      HomeKeeps(s, e.home);
    } else {
      SameKeeps(s, SetPhase(s, Starting));
      RunKeeps(SetPhase(s, Starting), e.start.ops);
      EnteredKeeps(Run(SetPhase(s, Starting), e.start.ops), e);
    }
  }

  lemma ArriveKeeps(s: State, a: Arrival)
    requires Inv(s)
    ensures Kept(s, Arrive(s, a))
    decreases a, 0
  {
    match a
    case GiveUp(home) => HomeKeeps(s, home);
    case Wait(until, halt) => DeferredKeeps(s, until, halt);
    case Enter(entry) => OpenWindowKeeps(s, entry);
  }

  lemma BookedKeeps(s: State, b: Booking)
    requires Inv(s)
    ensures Kept(s, Booked(s, b))
    decreases b, 0
  {
    match b
    case Rejected(cancelled, again, halt) =>
      SameKeeps(s, Cancel(s, cancelled));
      DeferredKeeps(Cancel(s, cancelled), again, halt);
    case Leased(arrival) =>
      var t := s.(radio := s.radio.(phase := Reserved, leased := true));
      SameKeeps(s, t);
      ArriveKeeps(t, arrival);
  }

  lemma PlannedKeeps(s: State, p: Plan)
    requires Inv(s)
    ensures Kept(s, Planned(s, p))
    decreases p, 0
  {
    match p
    case Later(at, halt) => DeferredKeeps(s, at, halt);
    case Book(expiry, booking, halt) =>
      SameKeeps(s, Arm(s, expiry));
      if ArmOk(s, expiry) {
        BookedKeeps(Arm(s, expiry), booking);
      } else {
        StopKeeps(Arm(s, expiry), halt);
      }
  }

  lemma ServeKeeps(s: State, e: Service)
    requires Inv(s)
    ensures Kept(s, Serve(s, e))
    decreases e, 1
  {
    if Handing(s) || s.radio.phase.Stopped? || s.radio.phase.Failed? {
    } else if s.radio.stopping || !e.ready || s.fault {
      StopKeeps(s, e.halt);
    } else if s.radio.phase.Waiting? {
      PlannedKeeps(s, e.plan);
    } else if s.radio.phase.Reserved? {
      ArriveKeeps(s, e.arrival);
    } else if e.stays.Some? {
      DeferredKeeps(s, e.stays.value, e.halt);
    } else {
      EndedHomeKeeps(s, e.end, e.home);
      PlannedKeeps(ReturnHome(EndWindow(s, e.end), e.home), e.plan);
    }
  }

  // -------------------------------------------------------------------------
  // Operations with call-outs
  // -------------------------------------------------------------------------

  lemma DisabledKeeps(s: State, stopped: bool, armed: bool)
    requires Inv(s)
    ensures Kept(s, Disabled(s, stopped, armed))
  {
    var t := Rearm(Clear(s), armed);
    ClearKeeps(s);
    SameKeeps(Clear(s), t);
    KeptOn(s, Clear(s), t);
    FaultKeeps(t);
    KeptOn(s, t, Fault(t));
  }

  lemma QuittingKeeps(s: State)
    requires Inv(s)
    ensures Kept(s, Quitting(s))
  {
    SameKeeps(s, Deactivated(s));
    AsideKeeps(Deactivated(s), Silenced);
    KeptOn(s, Deactivated(s), Quitting(s));
  }

  lemma DisableKeeps(s: State, e: ActivateEnv)
    requires Inv(s)
    ensures Kept(s, Disable(s, e))
    decreases e, 0
  {
    var q := Quitting(s);
    QuittingKeeps(s);
    StopKeeps(q, e.stop);
    KeptOn(s, q, StopScheduler(q, e.stop));
    DisabledKeeps(StopScheduler(q, e.stop), StopOk(q, e.stop), e.armed);
    KeptOn(s, StopScheduler(q, e.stop), Disable(s, e));
  }

  lemma ActivateKeeps(s: State, on: bool, e: ActivateEnv)
    requires Inv(s)
    ensures Kept(s, ActivateWith(s, on, e))
    decreases e, 1
  {
    if s.owns && s.attached {
      if on {
        EnableKeeps(s, e);
      } else {
        DisableKeeps(s, e);
      }
    }
  }

  lemma CloseKeeps(s: State, stop: Halt, quiesced: bool)
    requires Inv(s)
    ensures Kept(s, CloseWith(s, stop, quiesced))
    decreases stop, 2
  {
    SameKeeps(s, Deactivated(s));
    StopKeeps(Deactivated(s), stop);
    ReleasedKeeps(StopScheduler(Deactivated(s), stop), quiesced);
  }

  lemma AdoptedKeeps(s: State, next: Settings)
    requires Inv(s)
    ensures Kept(s, Adopted(s, next))
  {
  }

  lemma ApplyKeeps(s: State, next: Settings, e: ApplyEnv)
    requires Inv(s) && (Structural(next) && PlanAllowed(next.channels, s.domain) ==> Good(next, s.domain))
    ensures Kept(s, ApplySettings(s, next, e))
    decreases e, 1
  {
    if s.owns && !s.fault && AwdlSettings.Valid(next, s.config.mac, s.domain) {
      if TurnsOff(s, next) {
        StopKeeps(s, e.stop);
      }
      if TurnsOff(s, next) && !StopOk(s, e.stop) {
        FaultKeeps(StopScheduler(s, e.stop));
      } else {
        AdoptedKeeps(Quieted(s, next, e), next);
        RestartedKeeps(Adopted(Quieted(s, next, e), next), next, e);
      }
    }
  }

  lemma DraftIsGood(s: Settings, edit: Edit, mac: Address, domain: set<nat>)
    requires (Unset(s) || Settled(s)) && Drafted(s, edit, mac, domain).Proposed?
    ensures Structural(Drafted(s, edit, mac, domain).next) ==> Settled(Drafted(s, edit, mac, domain).next)
  {
    if Unset(s) {
      UnsetStaysUnset(s, edit, mac, domain);
    } else {
      PresenceCannotChange(s, edit, mac, domain);
    }
  }

  lemma RequestKeeps(s: State, version: nat, edit: Edit, e: ApplyEnv)
    requires Inv(s)
    ensures Kept(s, RequestWith(s, version, edit, e))
    decreases e, 2
  {
    var settings := s.config.settings;
    if s.owns && !s.fault && version <= VERSION && Drafted(settings, edit, s.config.mac, s.domain).Proposed? {
      DraftIsGood(settings, edit, s.config.mac, s.domain);
      ApplyKeeps(s, Drafted(settings, edit, s.config.mac, s.domain).next, e);
    }
  }

  lemma ServingKeeps(s: State)
    requires Inv(s)
    ensures Kept(s, Serving(s))
  {
    var t := SetPump(SetWindow(s.(servicing := true), 0), 0);
    SameKeeps(s, t);
    AsideKeeps(t, TimerRenewed);
    KeptOn(s, t, Serving(s));
  }

  lemma ServicedKeeps(s: State, e: FireEnv)
    requires Inv(s)
    ensures Kept(s, Serviced(s, e))
    decreases e, 0
  {
    var t := Relaunched(Serving(s), e.launch);
    ServingKeeps(s);
    RelaunchedKeeps(Serving(s), e.launch);
    KeptOn(s, Serving(s), t);
    ServeKeeps(t, e.service);
    KeptOn(s, t, Serve(t, e.service));
    JudgedKeeps(s, Serve(t, e.service), e);
  }

  lemma JudgedKeeps(s: State, t: State, e: FireEnv)
    requires Kept(s, t)
    ensures Kept(s, Finished(Judged(t), e))
  {
    FaultKeeps(t);
    KeptOn(s, t, Judged(t));
    FinishedKeeps(Judged(t), e);
    KeptOn(s, Judged(t), Finished(Judged(t), e));
  }

  lemma FireKeeps(s: State, e: FireEnv)
    requires Inv(s)
    ensures Kept(s, TimerFired(s, e))
    decreases e, 1
  {
    if !s.servicing {
      var t := Spent(s);
      SameKeeps(s, t);
      if s.active {
        ServicedKeeps(t, e);
      }
    }
  }

  lemma {:induction false} PeersDriveKeeps(s: State, replies: seq<PeerReply>)
    requires Inv(s)
    ensures Kept(s, PeersDrive(s, replies))
    decreases replies, 0
  {
    if s.peers.pc.Done? {
    } else if replies == [] {
      PeersFinishKeeps(s);
    } else {
      RunKeeps(s, replies[0].ops);
      var t := Run(s, replies[0].ops);
      if !t.peers.pc.Done? {
        PeersResumeKeeps(t, replies[0].result);
        PeersDriveKeeps(PeersResume(t, replies[0].result), replies[1..]);
      }
    }
  }

  lemma PeersCallKeeps(s: State, r: P.Request, replies: seq<PeerReply>)
    requires Inv(s)
    ensures Kept(s, PeersCall(s, r, replies))
    decreases replies, 1
  {
    PeersBeginKeeps(s, r);
    PeersDriveKeeps(PeersBegin(s, r), replies);
  }

  lemma PerformKeeps(s: State, op: Op)
    requires Inv(s) && OnRadio(op)
    ensures Kept(s, Perform(s, op))
    decreases op, 0
  {
    match op
    case OpenBackend(mac, native, added, inited) => OpenKeeps(s, mac, native, added, inited);
    case Activate(on, e) => ActivateKeeps(s, on, e);
    case Revoke => SameKeeps(s, Deactivated(s));
    case Close(stop, quiesced) => CloseKeeps(s, stop, quiesced);
    case Request(version, edit, e) => RequestKeeps(s, version, edit, e);
    case SetAddress(mac, quiesced, added, inited) => ReaddressKeeps(s, mac, quiesced, added, inited);
    case Transmit(frame, now, armed) => TransmitKeeps(s, frame, now, armed);
    case Fire(e) => FireKeeps(s, e);
  }

  lemma StepKeeps(s: State, op: Op)
    requires Inv(s)
    ensures Kept(s, Step(s, op))
    decreases op, 1
  {
    if op.PeerCall? {
      PeersCallKeeps(s, op.request, op.replies);
    } else if op.Report? {
      ReportKeeps(s);
    } else {
      AsideKeeps(s, Called(CallOf(op), InCall(s)));
      PerformKeeps(Noted(s, op), op);
    }
  }

  lemma {:induction false} RunKeeps(s: State, ops: seq<Op>)
    requires Inv(s)
    ensures Kept(s, Run(s, ops))
    decreases ops, 0
  {
    if ops != [] {
      StepKeeps(s, ops[0]);
      RunKeeps(Step(s, ops[0]), ops[1..]);
    }
  }
}
