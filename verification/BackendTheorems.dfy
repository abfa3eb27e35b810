/** What holds of the backend after every run, however its calls nest. */
module BackendTheorems {
  import opened Common
  import opened AwdlSettings
  import opened Backend
  import opened BackendProof
  import opened BackendRadio

  lemma Reachable(domain: set<nat>, ops: seq<Op>)
    ensures Inv(Run(Start(domain), ops)) && Run(Start(domain), ops).domain == domain
  {
    StartHolds(domain);
    RunKeeps(Start(domain), ops);
  }

  lemma StartSane(domain: set<nat>)
    ensures Sane(Start(domain)) && Awake(Start(domain))
  {
    assert Unset(BLANK);
  }

  // -------------------------------------------------------------------------
  // Settings
  // -------------------------------------------------------------------------

  /** From a successful open to the next close the settings satisfy every clause that does not
      name the present address, and presence and channel step are those of open. */
  lemma SettingsStaySettled(domain: set<nat>, ops: seq<Op>)
    requires HealthOf(Run(Start(domain), ops).log).isOpen
    ensures var x := Run(Start(domain), ops).config.settings;
      Structural(x) && PlanAllowed(x.channels, domain) && x.presence == 4 && x.channels.stepCount == 3
  {
    Reachable(domain, ops);
  }

  lemma {:induction false} SoundBefore(log: seq<Event>, i: nat)
    requires HealthOf(log).sound && i <= |log|
    ensures HealthOf(log[..i]).sound
  {
    if i == |log| {
      assert log[..i] == log;
    } else {
      SoundBefore(log[..|log| - 1], i);
      assert log[..|log| - 1][..i] == log[..i];
    }
  }

  /** Every snapshot reported while open has presence 4 and channel step 3. */
  lemma ReportsAreSettled(domain: set<nat>, ops: seq<Op>, i: nat)
    requires var log := Run(Start(domain), ops).log; i < |log| && log[i].Reported? && HealthOf(log[..i]).isOpen
    ensures Settled(Run(Start(domain), ops).log[i].settings)
  {
    Reachable(domain, ops);
    SoundAt(Run(Start(domain), ops).log, i);
  }

  lemma SoundAt(log: seq<Event>, i: nat)
    requires HealthOf(log).sound && i < |log| && log[i].Reported? && HealthOf(log[..i]).isOpen
    ensures Settled(log[i].settings)
  {
    SoundBefore(log, i + 1);
    assert log[..i + 1][..i] == log[..i];
  }

  /** Applying settings either succeeds with exactly them, or faults, or changes nothing at
      all: neither the settings nor what the election engine was told. */
  lemma ApplyIsAtomic(s: State, next: Settings, e: ApplyEnv)
    ensures var t, status := ApplySettings(s, next, e), ApplyStatus(s, next, e);
      && (status == Success ==> t.config.settings == next)
      && (status != Success ==> t.fault || t == s)
  {
    if s.owns && !s.fault && Valid(next, s.config.mac, s.domain) && !(TurnsOff(s, next) && !StopOk(s, e.stop)) {
      RestartIsAtomic(Adopted(Quieted(s, next, e), next), next, e);
    }
  }

  lemma RestartIsAtomic(s: State, next: Settings, e: ApplyEnv)
    ensures var t, status := Restarted(s, next, e), RestartStatus(s, next, e);
      && (status == Success ==> t.config.settings == next)
      && (status != Success ==> t.fault)
  {
  }

  // -------------------------------------------------------------------------
  // Validity for the present address
  // -------------------------------------------------------------------------

  /** Used as the runtime uses it, the backend has settings that are valid for its present
      address, once there are any, or it has faulted: however calls nest in window events. */
  lemma SettingsStayValid(domain: set<nat>, ops: seq<Op>)
    requires Orderly(Run(Start(domain), ops))
    ensures var s := Run(Start(domain), ops); s.fault || Proper(s)
  {
    StartSane(domain);
    RunMoves(Start(domain), ops);
  }

  /** The address is as it was. */
  predicate SameAddress(s: State, t: State) {
    && t.config.mac == s.config.mac && t.domain == s.domain
    && s.log <= t.log && ConductOf(t.log).address == ConductOf(s.log).address
  }

  lemma SameAddressOn(s: State, t: State, u: State)
    requires SameAddress(s, t) && SameAddress(t, u)
    ensures SameAddress(s, u)
  {
  }

  lemma LightAddress(s: State, l: Launch)
    ensures SameAddress(s, Light(s, l)) && SameAddress(s, Fault(Light(s, l)))
  {
    var t := LaunchRadio(s, l);
    assert t == s.(timers := t.timers, radio := t.radio);
    SameAddressOn(s, Light(s, l), Fault(Light(s, l)));
  }

  lemma PumpedAddress(s: State, deadline: nat, armed: bool)
    ensures SameAddress(s, Pumped(s, deadline, armed))
  {
  }

  lemma CommittedAddress(s: State, next: Settings, e: ApplyEnv)
    ensures SameAddress(s, Committed(s, next, e))
  {
    var t := SetSettings(s, next);
    PumpedAddress(t, e.now + 1, e.armed);
    SameAddressOn(s, t, Pumped(t, e.now + 1, e.armed));
    CommittedIs(s, next, e);
  }

  lemma RestartedAddress(s: State, next: Settings, e: ApplyEnv)
    ensures SameAddress(s, Restarted(s, next, e))
  {
    var t := Light(s, e.launch);
    LightAddress(s, e.launch);
    if !TurnsOn(s, next) {
      CommittedAddress(s, next, e);
    } else if LaunchOk(s, e.launch) {
      CommittedAddress(t, next, e);
      SameAddressOn(s, t, Committed(t, next, e));
    }
  }

  /** The address is one the parent clause forbids for these settings. */
  predicate Clashes(parent: Parent, mac: Address) {
    parent.state == 1 || parent.state == 3 || (parent.state == 2 && parent.master == mac)
  }

  /** The last name that the interface was given, or the one it had. */
  function LastName(events: seq<Event>, mac: Address): Address {
    if events == [] then mac
    else
      var e := events[|events| - 1];
      if e.Named? then e.mac else LastName(events[..|events| - 1], mac)
  }

  lemma {:induction false} NamesAdd(log: seq<Event>, events: seq<Event>)
    ensures ConductOf(log + events).address == LastName(events, ConductOf(log).address)
    decreases |events|
  {
    if events == [] {
      assert log + events == log;
    } else {
      var last := |events| - 1;
      NamesAdd(log, events[..last]);
      assert (log + events)[..|log + events| - 1] == log + events[..last];
    }
  }

  lemma AddressIsLastName(s: State, t: State)
    requires s.log <= t.log && s.config.mac == ConductOf(s.log).address && t.config.mac == ConductOf(t.log).address
    ensures t.config.mac == LastName(t.log[|s.log|..], s.config.mac)
  {
    NamesAdd(s.log, t.log[|s.log|..]);
    assert s.log + t.log[|s.log|..] == t.log;
  }

  lemma AppliedAddress(s: State, next: Settings, e: ApplyEnv)
    requires Inv(s) && ApplyStatus(s, next, e) == Success
    ensures var t := ApplySettings(s, next, e);
      s.log <= t.log && t.domain == s.domain && t.config.mac == ConductOf(t.log).address
  {
    if TurnsOff(s, next) {
      StopKeeps(s, e.stop);
    }
    RestartedAddress(Adopted(Quieted(s, next, e), next), next, e);
  }

  /** Settings that were applied are valid for the present address unless the interface was named
      anew during the request, by a name that clashes with their parent. */
  lemma AppliedValidity(s: State, next: Settings, e: ApplyEnv)
    requires Inv(s) && ApplyStatus(s, next, e) == Success
    ensures var t := ApplySettings(s, next, e);
      && s.log <= t.log
      && var name := LastName(t.log[|s.log|..], s.config.mac);
      Valid(t.config.settings, t.config.mac, t.domain) <==> name == s.config.mac || !Clashes(next.parent, name)
  {
    ApplyIsAtomic(s, next, e);
    AppliedAddress(s, next, e);
    AddressIsLastName(s, ApplySettings(s, next, e));
  }

  lemma {:induction false} RunConcat(s: State, first: seq<Op>, rest: seq<Op>)
    ensures Run(s, first + rest) == Run(Run(s, first), rest)
    decreases |first|
  {
    if first == [] {
      assert first + rest == rest;
    } else {
      RunConcat(Step(s, first[0]), first[1..], rest);
      assert (first + rest)[1..] == first[1..] + rest;
    }
  }

  lemma RunThen(s: State, ops: seq<Op>, op: Op)
    ensures Run(s, ops + [op]) == Step(Run(s, ops), op)
  {
    RunConcat(s, ops, [op]);
    assert [op][1..] == [];
    assert Run(Run(s, ops), [op]) == Run(Step(Run(s, ops), op), []);
  }

  /** The request asks for these settings. */
  predicate Asks(s: State, op: Op, next: Settings) {
    && op.Request? && op.version <= VERSION && |s.config.settings.channels.table| == TABLE
    && Drafted(s.config.settings, op.edit, s.config.mac, s.domain) == Proposed(next)
  }

  lemma AskedIsApplied(s: State, op: Op, next: Settings)
    requires Asks(s, op, next) && ApplyStatus(Noted(s, op), next, op.application) == Success
    ensures Step(s, op) == ApplySettings(Noted(s, op), next, op.application)
  {
    assert Step(s, op) == RequestWith(Noted(s, op), op.version, op.edit, op.application);
  }

  /** In every orderly run, a request that succeeds and meets no fault leaves the settings it asked
      for, and they are valid for the present address. */
  lemma AppliedSettingsAreValid(domain: set<nat>, ops: seq<Op>, op: Op, next: Settings)
    requires var s := Run(Start(domain), ops);
      && Asks(s, op, next) && ApplyStatus(Noted(s, op), next, op.application) == Success
      && Orderly(Step(s, op)) && !Step(s, op).fault
    ensures var t := Step(Run(Start(domain), ops), op);
      t.config.settings == next && Valid(next, t.config.mac, t.domain)
  {
    var s := Run(Start(domain), ops);
    AskedIsApplied(s, op, next);
    ApplyIsAtomic(Noted(s, op), next, op.application);
    RunThen(Start(domain), ops, op);
    SettingsStayValid(domain, ops + [op]);
  }

  // -------------------------------------------------------------------------
  // Frames
  // -------------------------------------------------------------------------

  /** Every frame that entered has left, in order, or is queued, in order. */
  lemma FramesAreConserved(domain: set<nat>, ops: seq<Op>)
    ensures var s := Run(Start(domain), ops);
      var b := TrafficOf(s.log);
      b.entered == b.left + s.data && |s.data| <= CAPACITY
  {
    Reachable(domain, ops);
  }

  function AcceptedSlots(log: seq<Event>): seq<Slot> {
    if log == [] then []
    else
      var rest, e := AcceptedSlots(log[..|log| - 1]), log[|log| - 1];
      if e.Accepted? then rest + [e.slot] else rest
  }

  /** Where the accepted frames stand among the frames that left. */
  function Positions(log: seq<Event>): seq<nat> {
    if log == [] then []
    else
      var rest, last := Positions(log[..|log| - 1]), |log| - 1;
      if log[last].Accepted? then rest + [|TrafficOf(log[..last]).left|] else rest
  }

  predicate Ascending(p: seq<nat>, bound: nat) {
    (forall i :: 0 <= i < |p| ==> p[i] < bound) && forall i, j :: 0 <= i < j < |p| ==> p[i] < p[j]
  }

  predicate Selects(p: seq<nat>, from: seq<Slot>, chosen: seq<Slot>) {
    |p| == |chosen| && Ascending(p, |from|) && forall i :: 0 <= i < |p| ==> from[p[i]] == chosen[i]
  }

  lemma LeftGrows(b: Traffic, e: Event)
    ensures b.left <= NoteTraffic(b, e).left
  {
  }

  lemma {:induction false} AcceptedLeft(log: seq<Event>)
    ensures Selects(Positions(log), TrafficOf(log).left, AcceptedSlots(log))
  {
    if log != [] {
      AcceptedLeft(log[..|log| - 1]);
      LeftGrows(TrafficOf(log[..|log| - 1]), log[|log| - 1]);
    }
  }

  /** The radio accepts frames in the order they entered, and none twice. */
  lemma AcceptedInOrder(domain: set<nat>, ops: seq<Op>)
    ensures var log := Run(Start(domain), ops).log;
      Selects(Positions(log), TrafficOf(log).entered, AcceptedSlots(log))
  {
    var log := Run(Start(domain), ops).log;
    Reachable(domain, ops);
    AcceptedLeft(log);
  }

  lemma {:induction false} LawfulBefore(log: seq<Event>, i: nat)
    requires TrafficOf(log).lawful && i <= |log|
    ensures TrafficOf(log[..i]).lawful
  {
    if i == |log| {
      assert log[..i] == log;
    } else {
      LawfulBefore(log[..|log| - 1], i);
      assert log[..|log| - 1][..i] == log[..i];
    }
  }

  /** The frames accepted since the interface was last named. */
  function Sent(log: seq<Event>): nat {
    if log == [] then 0
    else
      var last := |log| - 1;
      if log[last].Named? then 0 else Sent(log[..last]) + if log[last].Accepted? then 1 else 0
  }

  lemma {:induction false} CounterCountsSent(log: seq<Event>)
    ensures TrafficOf(log).counter == Sent(log) % COUNTERS
  {
    if log != [] {
      CounterCountsSent(log[..|log| - 1]);
      Wraps(Sent(log[..|log| - 1]));
    }
  }

  lemma Wraps(n: nat)
    ensures (n % COUNTERS + 1) % COUNTERS == (n + 1) % COUNTERS
  {
  }

  /** A frame reaches the radio no more than three seconds old, to a group or to a peer that the
      hardware added and was not told to remove, with no failure since, and that is not
      expected on another channel; it carries the number of frames accepted before it. A
      frame expires only when it is older. */
  lemma AcceptedFramesMayGo(domain: set<nat>, ops: seq<Op>, i: nat)
    requires i < |Run(Start(domain), ops).log|
    ensures var log := Run(Start(domain), ops).log;
      && (log[i].Accepted? ==>
            MayGo(log[i].slot, log[i].turn, log[i].channel, log[i].standing)
            && log[i].counter == Sent(log[..i]) % COUNTERS)
      && (log[i].Expired? ==> !Fresh(log[i].slot, log[i].now))
  {
    Reachable(domain, ops);
    LawfulAt(Run(Start(domain), ops).log, i);
  }

  lemma LawfulAt(log: seq<Event>, i: nat)
    requires TrafficOf(log).lawful && i < |log|
    ensures log[i].Accepted? ==> MayGo(log[i].slot, log[i].turn, log[i].channel, log[i].standing)
    ensures log[i].Accepted? ==> log[i].counter == Sent(log[..i]) % COUNTERS
    ensures log[i].Expired? ==> !Fresh(log[i].slot, log[i].now)
  {
    LawfulBefore(log, i + 1);
    assert log[..i + 1][..i] == log[..i];
    CounterCountsSent(log[..i]);
  }

  // -------------------------------------------------------------------------
  // Faults
  // -------------------------------------------------------------------------

  /** A fault is never cleared. */
  lemma FaultIsPermanent(domain: set<nat>, ops: seq<Op>, more: seq<Op>)
    requires Run(Start(domain), ops).fault
    ensures Run(Run(Start(domain), ops), more).fault
  {
    Reachable(domain, ops);
    RunKeeps(Run(Start(domain), ops), more);
  }

  lemma {:induction false} QuietBefore(log: seq<Event>, i: nat)
    requires HealthOf(log).quiet && i <= |log|
    ensures HealthOf(log[..i]).quiet
  {
    if i == |log| {
      assert log[..i] == log;
    } else {
      QuietBefore(log[..|log| - 1], i);
      assert log[..|log| - 1][..i] == log[..i];
    }
  }

  lemma {:induction false} FaultedSince(log: seq<Event>, f: nat)
    requires f < |log| && log[f] == Faulted
    ensures HealthOf(log).faulted
  {
    if f < |log| - 1 {
      FaultedSince(log[..|log| - 1], f);
    }
  }

  /** After a fault the radio is given nothing to transmit and no settings are reported. */
  lemma FaultSilences(domain: set<nat>, ops: seq<Op>, f: nat, i: nat)
    requires var log := Run(Start(domain), ops).log; f < i < |log| && log[f] == Faulted
    ensures var e := Run(Start(domain), ops).log[i]; !e.Accepted? && !e.ActionSent? && !e.Reported?
  {
    Reachable(domain, ops);
    SilentAfter(Run(Start(domain), ops).log, f, i);
  }

  lemma SilentAfter(log: seq<Event>, f: nat, i: nat)
    requires HealthOf(log).quiet && f < i < |log| && log[f] == Faulted
    ensures !log[i].Accepted? && !log[i].ActionSent? && !log[i].Reported?
  {
    QuietBefore(log, i + 1);
    assert log[..i + 1][..i] == log[..i];
    FaultedSince(log[..i], f);
  }

  // -------------------------------------------------------------------------
  // The timer
  // -------------------------------------------------------------------------

  /** The deadline wanted is one of those set, and no later than either. */
  lemma WantedIsEarliest(t: Timers)
    ensures Wanted(t).Idle? <==> t.window == 0 && t.pump == 0
    ensures Wanted(t).Armed? ==> Wanted(t).deadline in {t.window, t.pump} && Wanted(t).deadline != 0
    ensures Wanted(t).Armed? && t.window != 0 ==> Wanted(t).deadline <= t.window
    ensures Wanted(t).Armed? && t.pump != 0 ==> Wanted(t).deadline <= t.pump
  {
  }

  /** Used as the runtime uses it, and unless a revocation is still to be followed, the backend
      has its timer armed for the earlier deadline, or idle if there is none, or refused by the
      interface; exactly if no deadline has lapsed. */
  lemma TimerFollowsDeadlines(domain: set<nat>, ops: seq<Op>)
    requires var s := Run(Start(domain), ops); Orderly(s) && !Owing(s)
    ensures var s := Run(Start(domain), ops);
      !Lapsed(s) <==> s.timers.timer.Unknown? || s.timers.timer == Wanted(s.timers)
  {
    StartSane(domain);
    RunMoves(Start(domain), ops);
  }

  /** In particular whenever it is active and synchronized, which is when frames are queued. */
  lemma SynchronizedTimerFollows(domain: set<nat>, ops: seq<Op>)
    requires var s := Run(Start(domain), ops); Orderly(s) && s.active && s.config.settings.synchronize
    ensures var s := Run(Start(domain), ops);
      s.attached && (s.timers.timer.Unknown? || s.timers.timer == Wanted(s.timers))
  {
    StartSane(domain);
    RunMoves(Start(domain), ops);
  }

  /** An inactive backend, unless a revocation is still to be followed, has a retry due for which
      no timer is armed exactly if it lapsed; otherwise it has no deadline and an idle timer,
      or the interface refused a timer to an activation that failed. */
  lemma DisablingLeavesNothing(domain: set<nat>, ops: seq<Op>)
    requires var s := Run(Start(domain), ops); Orderly(s) && !s.active && !Owing(s)
    ensures var s := Run(Start(domain), ops);
      && (Lapsed(s) <==> s.timers.window == 0 && s.timers.pump != 0 && s.timers.timer == Idle)
      && (!Lapsed(s) <==> s.timers.timer.Unknown? || s.timers == Timers(0, 0, Idle))
  {
    StartSane(domain);
    RunMoves(Start(domain), ops);
  }

  /** A backend that should be synchronized but whose scheduler has stopped has a retry due, and
      its timer goes off no later. */
  lemma StoppedSchedulerIsRetried(domain: set<nat>, ops: seq<Op>)
    requires var s := Run(Start(domain), ops);
      Orderly(s) && s.active && s.config.settings.synchronize && !s.fault && s.radio.phase.Stopped?
    ensures var s := Run(Start(domain), ops);
      && s.timers.pump != 0
      && (s.timers.timer.Unknown? || (s.timers.timer.Armed? && s.timers.timer.deadline <= s.timers.pump))
  {
    StartSane(domain);
    RunMoves(Start(domain), ops);
  }

  // -------------------------------------------------------------------------
  // The timer after one call
  // -------------------------------------------------------------------------

  /** An active backend's timer follows its deadlines, or was not touched. */
  predicate Sets(s: State, t: State) {
    t.active && t.attached ==> Follows(t.timers) || t.timers == s.timers
  }

  lemma RearmSets(s: State, armed: bool)
    ensures var t := Rearm(s, armed); t.active && t.attached ==> Follows(t.timers)
  {
  }

  lemma LaunchSets(s: State, l: Launch)
    ensures Sets(s, Light(s, l))
  {
    RearmSets(Launching(s, l), l.armed);
    var t := LaunchRadio(s, l);
    assert t.timers == s.timers || t.timers == Rearm(Launching(s, l), l.armed).timers;
  }

  lemma EnableSets(s: State, e: ActivateEnv)
    ensures Sets(s, Enable(s, e))
  {
    if e.received && s.config.settings.synchronize && LaunchOk(Activated(s), e.launch) {
      LaunchSets(Activated(s), e.launch);
    } else if e.received && s.config.settings.synchronize {
      assert !Enable(s, e).active;
    }
  }

  lemma DisableSets(s: State, e: ActivateEnv)
    ensures Sets(s, Disable(s, e))
  {
    var t := Clear(StopScheduler(Quitting(s), e.stop));
    RearmSets(t, e.armed);
    assert Disable(s, e).timers == Rearm(t, e.armed).timers;
  }

  lemma HomeSets(s: State, h: Homing)
    ensures var t := ReturnHome(s, h); t.active && t.attached ==> Follows(t.timers)
  {
    var t := Cancel(s, h.cancelled);
    RearmSets(SetWindow(s, 0), h.cancelled);
    RearmSets(SetWindow(t.(radio := t.radio.(leased := false)), h.next.deadline), h.next.armed);
  }

  lemma StopSets(s: State, e: Halt)
    ensures var t := StopScheduler(s, e); t.active && t.attached ==> Follows(t.timers)
  {
    var t := Stopping(s, e.cancelled);
    RearmSets(SetWindow(s.(radio := s.radio.(stopping := true)), 0), e.cancelled);
    if !Handing(t) && !t.radio.phase.Stopped? {
      HomeSets(EndWindow(t, e.end), e.home);
    }
  }

  lemma CommittedSets(s: State, next: Settings, e: ApplyEnv)
    ensures Sets(s, Committed(s, next, e))
  {
    RearmSets(SetPump(SetSettings(s, next), e.now + 1), e.armed);
  }

  lemma SetsOn(s: State, t: State, u: State)
    requires Sets(s, t) && Sets(t, u) && (u.active && u.attached ==> t.active && t.attached)
    ensures Sets(s, u)
  {
  }

  /** Neither flag is gained. */
  predicate Within(s: State, t: State) {
    (t.active ==> s.active) && (t.attached ==> s.attached)
  }

  lemma CommittedWithin(s: State, next: Settings, e: ApplyEnv)
    ensures Within(s, Committed(s, next, e)) && Within(s, Light(s, e.launch))
  {
  }

  lemma RestartedSets(s: State, next: Settings, e: ApplyEnv)
    ensures Sets(s, Restarted(s, next, e)) && Within(s, Restarted(s, next, e))
  {
    var t := Light(s, e.launch);
    LaunchSets(s, e.launch);
    CommittedWithin(s, next, e);
    if !TurnsOn(s, next) {
      CommittedSets(s, next, e);
    } else if LaunchOk(s, e.launch) {
      CommittedSets(t, next, e);
      CommittedWithin(t, next, e);
      SetsOn(s, t, Committed(t, next, e));
    }
  }

  lemma ApplySets(s: State, next: Settings, e: ApplyEnv)
    ensures Sets(s, ApplySettings(s, next, e))
  {
    StopSets(s, e.stop);
    var a := Adopted(Quieted(s, next, e), next);
    RestartedSets(a, next, e);
    if TurnsOff(s, next) && StopOk(s, e.stop) {
      SetsOn(s, a, Restarted(a, next, e));
    }
  }

  lemma FireSets(s: State, e: FireEnv)
    ensures Sets(s, TimerFired(s, e))
  {
    if !s.servicing && s.active {
      var t := Judged(Serve(Relaunched(Serving(Spent(s)), e.launch), e.service));
      RearmSets(Retried(Worked(t, e), e.retry).(servicing := false), e.armed);
    }
  }

  lemma PerformSets(s: State, op: Op)
    requires OnRadio(op)
    ensures Sets(s, Perform(s, op))
  {
    match op
    case OpenBackend(mac, native, added, inited) => assert OpenWith(s, mac, native, added, inited).timers == s.timers;
    case Activate(on, e) =>
      EnableSets(s, e);
      DisableSets(s, e);
    case Revoke =>
    case Close(stop, quiesced) => assert !CloseWith(s, stop, quiesced).attached;
    case Request(version, edit, e) =>
      var was := s.config.settings;
      if |was.channels.table| == TABLE && Drafted(was, edit, s.config.mac, s.domain).Proposed? {
        ApplySets(s, Drafted(was, edit, s.config.mac, s.domain).next, e);
      }
    case SetAddress(mac, quiesced, added, inited) =>
      assert Readdress(s, mac, quiesced, added, inited).timers == s.timers;
    case Transmit(frame, now, armed) => RearmSets(SetPump(Queued(s, Slot(frame, now)), now + 1), armed);
    case Fire(e) => FireSets(s, e);
  }

  /** After any call on the radio in an orderly run, with whatever nests in it, the timer of an
      active backend follows its deadlines, or the call did not touch deadlines and timer. */
  lemma EveryCallSetsTheTimer(domain: set<nat>, ops: seq<Op>, op: Op)
    requires OnRadio(op) && var t := Step(Run(Start(domain), ops), op); Orderly(t) && t.active
    ensures var s := Run(Start(domain), ops);
      var t := Step(s, op);
      t.timers.timer.Unknown? || t.timers.timer == Wanted(t.timers) || t.timers == s.timers
  {
    var s := Run(Start(domain), ops);
    StartSane(domain);
    RunMoves(Start(domain), ops);
    StepMoves(s, op);
    PerformSets(Noted(s, op), op);
  }

  /** An activation that succeeds leaves a timer that follows the deadlines exactly if the
      backend is synchronized or the timer followed them before. */
  lemma ActivationFollowsIff(s: State, e: ActivateEnv)
    requires !s.active && Step(s, Activate(true, e)).active
    ensures var t := Step(s, Activate(true, e));
      Follows(t.timers) <==> s.config.settings.synchronize || Follows(s.timers)
  {
    var q := Noted(s, Activate(true, e));
    ActivateIs(s, e);
    ActivatedFollowsIff(q, e);
  }

  lemma ActivateIs(s: State, e: ActivateEnv)
    ensures Step(s, Activate(true, e)) == ActivateWith(Noted(s, Activate(true, e)), true, e)
  {
  }

  lemma ActivatedFollowsIff(s: State, e: ActivateEnv)
    requires !s.active && ActivateWith(s, true, e).active
    ensures Follows(ActivateWith(s, true, e).timers) <==> s.config.settings.synchronize || Follows(s.timers)
  {
    var a := Activated(s);
    assert ActivateWith(s, true, e) == Enable(s, e);
    if s.config.settings.synchronize {
      RearmSets(Launching(a, e.launch), e.launch.armed);
      assert Enable(s, e).timers == Rearm(Launching(a, e.launch), e.launch.armed).timers;
    }
  }

  /** A stop answers yes exactly if it leaves the scheduler stopped and met no window event being
      delivered; otherwise the scheduler failed or the delivery goes on. */
  lemma StopReports(s: State, e: Halt)
    requires Sane(s)
    ensures var t := StopScheduler(s, e);
      && (StopOk(s, e) <==> !Handing(s) && t.radio.phase.Stopped?)
      && (!StopOk(s, e) ==> if Handing(s) then t.radio.phase == s.radio.phase else t.radio.phase.Failed?)
  {
    var t := Stopping(s, e.cancelled);
    if !Handing(t) && !t.radio.phase.Stopped? {
      if s.radio.phase.Open? {
        CancelFine(s.(radio := s.radio.(stopping := true)), e.cancelled);
        EndWindowServes(t, e.end);
      }
      HomeReports(EndWindow(t, e.end), e.home);
    }
  }

  lemma HomeReports(s: State, h: Homing)
    requires s.radio.stopping
    ensures HomeOk(s, h) <==> ReturnHome(s, h).radio.phase.Stopped?
    ensures !HomeOk(s, h) ==> ReturnHome(s, h).radio.phase.Failed?
  {
  }
}
