/** The backend as the driver runs it: an object updated in place, with its frames in a ring of
    64 slots and its window scheduler. Proved against `Backend`. */
module NativeBackendClass {
  import opened Common
  import opened Rings
  import opened AwdlSettings
  import opened Backend
  import P = Peers

  class NativeBackend {
    const domain: set<nat>
    var owns: bool
    var attached: bool
    var active: bool
    var fault: bool
    var servicing: bool
    var phase: Phase
    var stopRequested: bool
    var leaseOwned: bool
    var resetRequired: bool
    var settings: Settings
    var mac: Address
    var windowDeadline: nat
    var pumpDeadline: nat
    var timer: Timer
    var peers: PeerOwner
    const frames: Ring<Slot>
    var dataCounter: nat
    ghost var election: seq<ElectionCall>
    ghost var log: seq<Event>

    ghost predicate Valid()
      reads this, frames
    {
      frames.Valid() && frames.slots.Length == CAPACITY
    }

    ghost function Abs(): State
      requires Valid()
      reads this, frames, frames.slots
    {
      State(domain, owns, attached, active, fault, servicing,
            Scheduler(phase, stopRequested, leaseOwned, resetRequired), Config(settings, mac, election),
            Timers(windowDeadline, pumpDeadline, timer), peers, frames.Contents(), dataCounter, log)
    }

    constructor (domain: set<nat>)
      ensures Valid() && fresh(frames) && fresh(frames.slots) && Abs() == Start(domain)
    {
      this.domain := domain;
      owns, attached, active, fault, servicing := false, false, false, false, false;
      phase, stopRequested, leaseOwned, resetRequired := Stopped, false, false, false;
      settings, mac, election := BLANK, ZERO_ADDRESS, [];
      windowDeadline, pumpDeadline, timer, peers := 0, 0, Idle, P.Point(P.START, P.Done(Success));
      frames := new Ring<Slot>(CAPACITY);
      dataCounter, log := 0, [];
    }

    ghost method Note(e: Event)
      requires Valid()
      modifies this`log
      ensures Valid() && Abs() == old(Abs()).Log(e)
    {
      log := log + [e];
    }

    // -----------------------------------------------------------------------
    // The timer
    // -----------------------------------------------------------------------

    method RearmTimer(armed: bool) returns (ok: bool)
      requires Valid()
      modifies this`timer
      ensures Valid() && Abs() == Rearm(old(Abs()), armed) && ok == RearmOk(old(Abs()), armed)
    {
      if !attached {
        return false;
      }
      if !active {
        timer := Idle;
        return true;
      }
      var deadline := windowDeadline;
      if pumpDeadline != 0 && (deadline == 0 || pumpDeadline < deadline) {
        deadline := pumpDeadline;
      }
      if deadline == 0 {
        timer := Idle;
        return true;
      }
      timer := if armed then Armed(deadline) else Unknown;
      return armed;
    }

    method WriteWindow(deadline: nat)
      requires Valid()
      modifies this`windowDeadline
      ensures Valid() && Abs() == SetWindow(old(Abs()), deadline)
    {
      windowDeadline := deadline;
    }

    method WritePump(deadline: nat)
      requires Valid()
      modifies this`pumpDeadline
      ensures Valid() && Abs() == SetPump(old(Abs()), deadline)
    {
      pumpDeadline := deadline;
    }

    // -----------------------------------------------------------------------
    // The scheduler
    // -----------------------------------------------------------------------

    method EnterPhase(next: Phase)
      requires Valid()
      modifies this`phase
      ensures Valid() && Abs() == SetPhase(old(Abs()), next)
    {
      phase := next;
    }

    method ArmTimer(a: Arming) returns (ok: bool)
      requires Valid()
      modifies this`windowDeadline, this`timer
      ensures Valid() && Abs() == Arm(old(Abs()), a) && ok == ArmOk(old(Abs()), a)
    {
      WriteWindow(a.deadline);
      ok := RearmTimer(a.armed);
    }

    method CancelTimer(armed: bool)
      requires Valid()
      modifies this`windowDeadline, this`timer
      ensures Valid() && Abs() == Cancel(old(Abs()), armed)
    {
      WriteWindow(0);
      var _ := RearmTimer(armed);
    }

    method Reenter(ops: seq<Op>)
      requires Valid()
      modifies this, frames, frames.slots
      ensures Valid() && Abs() == Run(old(Abs()), ops)
      decreases ops, 0
    {
      for i := 0 to |ops|
        invariant Valid() && Run(Abs(), ops[i..]) == Run(old(Abs()), ops)
      {
        assert ops[i..][0] == ops[i] && ops[i..][1..] == ops[i + 1..];
        Dispatch(ops[i]);
      }
      assert ops[|ops|..] == [];
    }

    method CloseWindow(h: Handoff)
      requires Valid()
      modifies this, frames, frames.slots
      ensures Valid() && Abs() == EndWindow(old(Abs()), h)
      decreases h, 0
    {
      if phase.Open? {
        EnterPhase(Ending);
        Reenter(h.ops);
        FinishWindow(h.taken);
      }
    }

    method FinishWindow(taken: bool)
      requires Valid()
      modifies this`phase, this`resetRequired
      ensures Valid() && Abs() == Ended(old(Abs()), taken)
    {
      if !taken {
        resetRequired := true;
      }
      phase := Reserved;
    }

    method GoHome(h: Homing) returns (ok: bool)
      requires Valid()
      modifies this`windowDeadline, this`timer, this`phase, this`leaseOwned, this`stopRequested
      ensures Valid() && Abs() == ReturnHome(old(Abs()), h) && ok == HomeOk(old(Abs()), h)
    {
      CancelTimer(h.cancelled);
      ok := GiveBack(h);
    }

    /** The rest of returning home, with the timer cancelled. */
    method GiveBack(h: Homing) returns (ok: bool)
      requires Valid()
      modifies this`windowDeadline, this`timer, this`phase, this`leaseOwned, this`stopRequested
      ensures Valid()
      ensures Abs() == if old(leaseOwned) && !h.restored then SetPhase(old(Abs()), Failed)
                       else AtHome(old(Abs()).(radio := old(Abs()).radio.(leased := false)), h.next)
      ensures ok == ((old(leaseOwned) ==> h.restored) && !resetRequired
                     && (old(stopRequested) || ArmOk(old(Abs()), h.next)))
    {
      if leaseOwned && !h.restored {
        EnterPhase(Failed);
        return false;
      }
      DropLease();
      ok := SettleHome(h.next);
    }

    method DropLease()
      requires Valid()
      modifies this`leaseOwned
      ensures Valid() && Abs() == old(Abs()).(radio := old(Abs()).radio.(leased := false))
    {
      leaseOwned := false;
    }

    method SettleHome(next: Arming) returns (ok: bool)
      requires Valid()
      modifies this`windowDeadline, this`timer, this`phase, this`stopRequested
      ensures Valid() && Abs() == AtHome(old(Abs()), next)
      ensures ok == (!resetRequired && (old(stopRequested) || ArmOk(old(Abs()), next)))
    {
      if resetRequired {
        EnterPhase(Failed);
        return false;
      }
      if stopRequested {
        EnterPhase(Stopped);
        return true;
      }
      ok := ArmTimer(next);
      if ok {
        phase := Waiting;
      } else {
        phase, stopRequested := Stopped, true;
      }
    }

    method RequestStop(armed: bool)
      requires Valid()
      modifies this`stopRequested, this`windowDeadline, this`timer
      ensures Valid() && Abs() == Stopping(old(Abs()), armed)
    {
      MarkStopping();
      CancelTimer(armed);
    }

    method MarkStopping()
      requires Valid()
      modifies this`stopRequested
      ensures Valid() && Abs() == old(Abs()).(radio := old(Abs()).radio.(stopping := true))
    {
      stopRequested := true;
    }

    method Stop(e: Halt) returns (ok: bool)
      requires Valid()
      modifies this, frames, frames.slots
      ensures Valid() && Abs() == StopScheduler(old(Abs()), e) && ok == StopOk(old(Abs()), e)
      decreases e, 1
    {
      RequestStop(e.cancelled);
      ok := Halting(e);
    }

    method Halting(e: Halt) returns (ok: bool)
      requires Valid()
      modifies this, frames, frames.slots
      ensures Valid() && Abs() == Halted(old(Abs()), e)
      ensures var s := old(Abs());
        ok == (!Handing(s) && (s.radio.phase.Stopped? || HomeOk(EndWindow(s, e.end), e.home)))
      decreases e, 0
    {
      if phase.Starting? || phase.Ending? {
        return false;
      }
      if phase.Stopped? {
        return true;
      }
      CloseWindow(e.end);
      ok := GoHome(e.home);
    }

    method Defer(a: Arming, halt: Halt)
      requires Valid()
      modifies this, frames, frames.slots
      ensures Valid() && Abs() == Deferred(old(Abs()), a, halt)
      decreases halt, 2
    {
      var ok := ArmTimer(a);
      if !ok {
        var _ := Stop(halt);
      }
    }

    method TryOpenWindow(e: Entry)
      requires Valid()
      modifies this, frames, frames.slots
      ensures Valid() && Abs() == OpenWindow(old(Abs()), e)
      decreases e, 1
    {
      if !e.opens || fault {
        var _ := GoHome(e.home);
      } else {
        EnterPhase(Starting);
        Reenter(e.start.ops);
        EnterWindow(e);
      }
    }

    method EnterWindow(e: Entry)
      requires Valid()
      modifies this, frames, frames.slots
      ensures Valid() && Abs() == Entered(old(Abs()), e)
      decreases e, 0
    {
      if !e.start.taken {
        EnterPhase(Reserved);
        var _ := GoHome(e.home);
        return;
      }
      EnterPhase(Open);
      if stopRequested {
        CloseWindow(e.end);
        var _ := GoHome(e.home);
      } else {
        Defer(e.until, e.halt);
      }
    }

    method OnArrival(a: Arrival)
      requires Valid()
      modifies this, frames, frames.slots
      ensures Valid() && Abs() == Arrive(old(Abs()), a)
      decreases a, 0
    {
      match a
      case GiveUp(home) => var _ := GoHome(home);
      case Wait(until, halt) => Defer(until, halt);
      case Enter(entry) => TryOpenWindow(entry);
    }

    method TakeLease()
      requires Valid()
      modifies this`phase, this`leaseOwned
      ensures Valid() && Abs() == old(Abs()).(radio := old(Abs()).radio.(phase := Reserved, leased := true))
    {
      phase, leaseOwned := Reserved, true;
    }

    method OnBooking(b: Booking)
      requires Valid()
      modifies this, frames, frames.slots
      ensures Valid() && Abs() == Booked(old(Abs()), b)
      decreases b, 0
    {
      match b
      case Rejected(cancelled, again, halt) =>
        CancelTimer(cancelled);
        Defer(again, halt);
      case Leased(arrival) =>
        TakeLease();
        OnArrival(arrival);
    }

    method FollowPlan(p: Plan)
      requires Valid()
      modifies this, frames, frames.slots
      ensures Valid() && Abs() == Planned(old(Abs()), p)
      decreases p, 0
    {
      match p
      case Later(at, halt) => Defer(at, halt);
      case Book(expiry, booking, halt) =>
        var ok := ArmTimer(expiry);
        if ok {
          OnBooking(booking);
        } else {
          var _ := Stop(halt);
        }
    }

    method ServiceScheduler(e: Service)
      requires Valid()
      modifies this, frames, frames.slots
      ensures Valid() && Abs() == Serve(old(Abs()), e)
      decreases e, 1
    {
      if phase.Stopped? || phase.Failed? || phase.Starting? || phase.Ending? {
        return;
      }
      if stopRequested || !e.ready || fault {
        var _ := Stop(e.halt);
        return;
      }
      match phase
      case Waiting => FollowPlan(e.plan);
      case Reserved => OnArrival(e.arrival);
      case Open =>
        if e.stays.Some? {
          Defer(e.stays.value, e.halt);
        } else {
          ExpireWindow(e);
        }
    }

    method ExpireWindow(e: Service)
      requires Valid()
      modifies this, frames, frames.slots
      ensures Valid()
      ensures Abs() == WindowOver(ReturnHome(EndWindow(old(Abs()), e.end), e.home), e.plan)
      decreases e, 0
    {
      CloseWindow(e.end);
      var _ := GoHome(e.home);
      if phase.Waiting? {
        FollowPlan(e.plan);
      }
    }

    method BeginWaiting()
      requires Valid()
      modifies this`phase, this`stopRequested
      ensures Valid() && Abs() == old(Abs()).(radio := old(Abs()).radio.(phase := Waiting, stopping := false))
    {
      phase, stopRequested := Waiting, false;
    }

    method StartWhenAuthorized(l: Launch) returns (ok: bool)
      requires Valid()
      modifies this`windowDeadline, this`pumpDeadline, this`timer, this`phase, this`stopRequested
      ensures Valid() && Abs() == LaunchRadio(old(Abs()), l) && ok == LaunchOk(old(Abs()), l)
    {
      if !l.prepared {
        WritePump(l.now + RETRY);
        ok := RearmTimer(l.armed);
      } else if phase.Stopped? && l.startable && !fault {
        BeginWaiting();
        WriteWindow(l.deadline + 1);
        ok := RearmTimer(l.armed);
        if !ok {
          EnterPhase(Stopped);
        }
      } else {
        ok := false;
      }
    }

    // -----------------------------------------------------------------------
    // The peer owner
    // -----------------------------------------------------------------------

    method ReplacePeers(p: PeerOwner)
      requires Valid()
      modifies this`peers
      ensures Valid() && Abs() == SetPeers(old(Abs()), p)
    {
      peers := p;
    }

    method CallPeers(r: P.Request, replies: seq<PeerReply>)
      requires Valid()
      modifies this, frames, frames.slots
      ensures Valid() && Abs() == PeersCall(old(Abs()), r, replies)
      decreases replies, 1
    {
      var resting := peers.pc.Done?;
      BeginPeers(r);
      if resting {
        DrivePeers(replies);
      }
    }

    method BeginPeers(r: P.Request)
      requires Valid()
      modifies this`peers
      ensures Valid() && Abs() == PeersBegin(old(Abs()), r)
    {
      var p := P.Begin(peers.state, r);
      ReplacePeers(if peers.pc.Done? then p else P.Point(p.state, peers.pc));
    }

    method ResumePeers(result: P.PeerResult)
      requires Valid() && !peers.pc.Done?
      modifies this`peers
      ensures Valid() && Abs() == PeersResume(old(Abs()), result)
    {
      P.ResumeAdvances(peers.state, peers.pc, result);
      ReplacePeers(P.Resume(peers.state, peers.pc, result));
    }

    method DrivePeers(replies: seq<PeerReply>)
      requires Valid()
      modifies this, frames, frames.slots
      ensures Valid() && Abs() == PeersDrive(old(Abs()), replies)
      decreases replies, 0
    {
      if peers.pc.Done? {
        return;
      }
      if replies == [] {
        ReplacePeers(P.Drive(peers, []));
        return;
      }
      Reenter(replies[0].ops);
      if !peers.pc.Done? {
        ResumePeers(replies[0].result);
        DrivePeers(replies[1..]);
      }
    }

    // -----------------------------------------------------------------------
    // Lifetime
    // -----------------------------------------------------------------------

    method SetFault()
      requires Valid()
      modifies this`fault, this`log
      ensures Valid() && Abs() == Fault(old(Abs()))
    {
      fault := true;
      log := log + [Faulted];
    }

    method ClearQueues()
      requires Valid()
      modifies this`log, frames
      ensures Valid() && Abs() == Clear(old(Abs()))
    {
      ghost var slots := frames.Contents();
      frames.Clear();
      log := log + [Cleared(slots)];
    }

    method Attach()
      requires Valid()
      modifies this`owns, this`attached
      ensures Valid() && Abs() == Attached(old(Abs()))
    {
      owns, attached := true, true;
    }

    method Install(address: Address, schedule: seq<nat>)
      requires Valid() && Pick(SOCIAL, domain) != [] && schedule == Schedule(domain)
      modifies this`settings, this`mac, this`election, this`dataCounter, this`log
      ensures Valid() && Abs() == Installed(old(Abs()), address)
    {
      ghost var s := Abs().(config := Config(Opened(address, domain), address, [Init(address)]), counter := 0);
      mac, election, dataCounter := address, [Init(address)], 0;
      settings := Settings(SyncParams(16, 16, 16, 110, 0), Parent(1, 0, address),
                           ChannelPlan(SLOTS, 0, 3, 0, Table(schedule)), Thresholds(0, 0, 0, -70),
                           Extension(3, 3, 3, 3), 4, 0, 0, 0, false);
      assert Abs() == s;
      Note(Named(address));
      Note(Configured);
    }

    method OpenInterface(address: Address, native: bool, added: bool, inited: bool) returns (status: IOReturn)
      requires Valid()
      modifies this
      ensures Valid() && Abs() == OpenWith(old(Abs()), address, native, added, inited)
      ensures status == OpenStatus(old(Abs()), address, native, added, inited)
    {
      if owns || attached || fault {
        return Busy;
      }
      if !native || !Unicast(address) {
        return BadArgument;
      }
      if !added {
        return NotReady;
      }
      Attach();
      var plan := new nat[SLOTS];
      var count := PickInto(plan, SOCIAL, domain);
      if count == 0 {
        return NotReady;
      }
      Repeat(plan, count);
      if !inited {
        return BadArgument;
      }
      assert plan[..] == Schedule(domain);
      Install(address, plan[..]);
      return Success;
    }

    method Quit()
      requires Valid()
      modifies this`active, this`pumpDeadline
      ensures Valid() && Abs() == Deactivated(old(Abs()))
    {
      active, pumpDeadline := false, 0;
    }

    method MarkActive()
      requires Valid()
      modifies this`active
      ensures Valid() && Abs() == Activated(old(Abs()))
    {
      active := true;
    }

    method MarkInactive()
      requires Valid()
      modifies this`active
      ensures Valid() && Abs() == old(Abs()).(active := false)
    {
      active := false;
    }

    method DisableRadio(e: ActivateEnv)
      requires Valid()
      modifies this, frames, frames.slots
      ensures Valid() && Abs() == Disable(old(Abs()), e)
      decreases e, 0
    {
      Quit();
      Note(Silenced);
      var stopped := Stop(e.stop);
      FinishDisabling(stopped, e.armed);
    }

    method FinishDisabling(stopped: bool, armed: bool)
      requires Valid()
      modifies this, frames
      ensures Valid() && Abs() == Disabled(old(Abs()), stopped, armed)
    {
      ClearQueues();
      var _ := RearmTimer(armed);
      if !stopped {
        SetFault();
      }
    }

    /** A launch by an activation or a settings request. */
    method LightRadio(l: Launch) returns (ok: bool)
      requires Valid()
      modifies this
      ensures Valid() && Abs() == Light(old(Abs()), l) && ok == LaunchOk(old(Abs()), l)
    {
      ghost var launches := Launches(Abs(), l);
      ok := StartWhenAuthorized(l);
      if launches {
        Note(TimerRenewed);
      }
    }

    method EnableRadio(e: ActivateEnv)
      requires Valid()
      modifies this
      ensures Valid() && Abs() == Enable(old(Abs()), e)
    {
      if e.received {
        MarkActive();
        if settings.synchronize {
          var ok := LightRadio(e.launch);
          if !ok {
            MarkInactive();
            if (phase.Starting? || phase.Ending?) && !e.launch.prepared {
              Note(Stranded);
            }
          }
        } else {
          Note(Enabled(phase.Starting? || phase.Ending?));
        }
      }
    }

    method SetActive(on: bool, e: ActivateEnv)
      requires Valid()
      modifies this, frames, frames.slots
      ensures Valid() && Abs() == ActivateWith(old(Abs()), on, e)
      decreases e, 1
    {
      if owns && attached {
        if !on {
          DisableRadio(e);
        } else if !active && !fault && e.ready {
          EnableRadio(e);
        }
      }
    }

    method CloseInterface(stop: Halt, quiesced: bool)
      requires Valid()
      modifies this, frames, frames.slots
      ensures Valid() && Abs() == CloseWith(old(Abs()), stop, quiesced)
      decreases stop, 2
    {
      Quit();
      var _ := Stop(stop);
      Release(quiesced);
    }

    method Release(quiesced: bool)
      requires Valid()
      modifies this, frames
      ensures Valid() && Abs() == Released(old(Abs()), quiesced)
    {
      if owns && !quiesced {
        SetFault();
      }
      Detach();
      ClearQueues();
      AcceptSettings(BLANK);
      Note(Closed);
    }

    method Detach()
      requires Valid()
      modifies this`owns, this`attached, this`windowDeadline, this`timer
      ensures Valid() && Abs() == Detached(old(Abs()))
    {
      if attached {
        timer := Idle;
      }
      owns, attached, windowDeadline := false, false, 0;
    }

    // -----------------------------------------------------------------------
    // Settings
    // -----------------------------------------------------------------------

    method AcceptSettings(next: Settings)
      requires Valid()
      modifies this`settings
      ensures Valid() && Abs() == SetSettings(old(Abs()), next)
    {
      settings := next;
    }

    method CheckSettings(next: Settings) returns (ok: bool)
      ensures ok == AwdlSettings.Valid(next, mac, domain)
    {
      if !Structural(next) || !ParentValid(next.parent, mac) {
        return false;
      }
      ok := CheckPlan(next.channels, domain);
    }

    ghost method TellElection(next: Settings)
      requires Valid()
      modifies this`election
      ensures Valid() && Abs() == Adopted(old(Abs()), next)
    {
      election := election + [Adopt(next)];
    }

    method Configure(next: Settings, e: ApplyEnv) returns (status: IOReturn)
      requires Valid()
      modifies this, frames, frames.slots
      ensures Valid() && Abs() == ApplySettings(old(Abs()), next, e) && status == ApplyStatus(old(Abs()), next, e)
      decreases e, 1
    {
      if !owns || fault {
        return NotReady;
      }
      var ok := CheckSettings(next);
      if !ok {
        return Unsupported;
      }
      ghost var s := Abs();
      if active && settings.synchronize && !next.synchronize {
        var stopped := Stop(e.stop);
        if !stopped {
          SetFault();
          return Error;
        }
      }
      assert Abs() == Quieted(s, next, e);
      TellElection(next);
      status := Restart(next, e);
    }

    method Restart(next: Settings, e: ApplyEnv) returns (status: IOReturn)
      requires Valid()
      modifies this
      ensures Valid() && Abs() == Restarted(old(Abs()), next, e) && status == RestartStatus(old(Abs()), next, e)
    {
      if active && next.synchronize && !settings.synchronize {
        var ok := LightRadio(e.launch);
        if !ok {
          SetFault();
          return Error;
        }
      }
      var ok := Commit(next, e);
      return if ok then Success else Error;
    }

    method Commit(next: Settings, e: ApplyEnv) returns (ok: bool)
      requires Valid()
      modifies this
      ensures Valid() && Abs() == Committed(old(Abs()), next, e) && ok == CommitOk(old(Abs()), next, e)
    {
      AcceptSettings(next);
      if active && next.synchronize {
        ok := Pump(e.now + 1, e.armed);
      } else {
        ok := true;
      }
    }

    method Pump(deadline: nat, armed: bool) returns (ok: bool)
      requires Valid()
      modifies this
      ensures Valid() && Abs() == Pumped(old(Abs()), deadline, armed)
      ensures ok == RearmOk(SetPump(old(Abs()), deadline), armed)
    {
      WritePump(deadline);
      ok := RearmTimer(armed);
      Note(TimerRenewed);
      if !ok {
        SetFault();
      }
    }

    method HandleRequest(version: nat, edit: Edit, e: ApplyEnv)
      requires Valid()
      modifies this, frames, frames.slots
      ensures Valid() && Abs() == RequestWith(old(Abs()), version, edit, e)
      decreases e, 2
    {
      if owns && !fault && version <= VERSION && |settings.channels.table| == TABLE {
        match Drafted(settings, edit, mac, domain)
        case Refused(_) =>
        case Proposed(next) => var _ := Configure(next, e);
      }
    }

    method Rename(address: Address)
      requires Valid()
      modifies this`settings, this`mac, this`election, this`dataCounter, this`log
      ensures Valid() && Abs() == Renamed(old(Abs()), address)
    {
      ghost var renamed := settings.(parent := settings.parent.(state := 1, master := address));
      ghost var s := Abs().(config := Config(renamed, address, [Init(address)]), counter := 0);
      settings := settings.(parent := settings.parent.(state := 1, master := address));
      mac, election, dataCounter := address, [Init(address)], 0;
      assert Abs() == s;
      Note(Named(address));
    }

    method ChangeAddress(address: Address, quiesced: bool, added: bool, inited: bool)
      requires Valid()
      modifies this, frames
      ensures Valid() && Abs() == Readdress(old(Abs()), address, quiesced, added, inited)
    {
      if !active && owns && attached && Unicast(address) {
        if !quiesced {
          SetFault();
          return;
        }
        owns := added;
        if !added || !inited {
          SetFault();
          return;
        }
        Rename(address);
        ClearQueues();
      }
    }

    method SnapshotSettings() returns (out: Option<Settings>)
      requires Valid()
      modifies this`log
      ensures Valid() && Abs() == ReportSettings(old(Abs()))
      ensures out == if owns && !fault then Some(settings) else None
    {
      if !owns || fault {
        return None;
      }
      Note(Reported(settings));
      return Some(settings);
    }

    // -----------------------------------------------------------------------
    // Frames
    // -----------------------------------------------------------------------

    method TransmitEthernet(frame: Frame, now: nat, armed: bool) returns (ok: bool)
      requires Valid()
      modifies this, frames, frames.slots
      ensures Valid() && Abs() == TransmitFrame(old(Abs()), frame, now, armed) && ok == Admits(old(Abs()), frame)
    {
      ok := active && settings.synchronize && frame.wellFormed && frame.source == mac && frames.count != CAPACITY;
      if ok {
        Enqueue(Slot(frame, now));
        WritePump(now + 1);
        var _ := RearmTimer(armed);
      }
    }

    method Enqueue(slot: Slot)
      requires Valid() && frames.count != CAPACITY
      modifies this`log, frames, frames.slots
      ensures Valid() && Abs() == Queued(old(Abs()), slot)
    {
      frames.Push(slot);
      log := log + [Enqueued(slot)];
    }

    method PopData(ghost e: Event)
      requires Valid() && frames.count != 0
      modifies this`log, frames
      ensures Valid() && Abs() == Drop(old(Abs()), e)
    {
      var _ := frames.Pop();
      log := log + [e];
    }

    method SendHead(slot: Slot, turn: Turn, channel: nat)
      requires Valid() && frames.count != 0 && slot == Abs().data[0]
      modifies this, frames
      ensures Valid() && Abs() == Send(old(Abs()), turn, channel)
    {
      PopData(Accepted(slot, turn, channel, dataCounter, StandingOf(Abs(), slot.frame.target)));
      dataCounter := (dataCounter + 1) % COUNTERS;
    }

    /** One turn; `more` says whether the loop goes on. */
    method ServeHead(turn: Turn, channel: nat) returns (more: bool)
      requires Valid() && frames.count != 0
      modifies this, frames
      ensures Valid() && more == TakeTurn(old(Abs()), turn, channel).Some?
      ensures Abs() == if more then TakeTurn(old(Abs()), turn, channel).value else old(Abs())
    {
      var slot := frames.Peek();
      if turn.now < slot.queued || turn.now - slot.queued > LIFETIME {
        PopData(Expired(slot, turn.now));
        return true;
      }
      var group := Group(slot.frame.target);
      if !group && !P.Authorized(peers.state, slot.frame.target) {
        return false;
      }
      if !group && turn.expected.Some? && turn.expected.value != channel {
        return false;
      }
      if !(phase.Open? && !stopRequested && !fault && turn.permitted) {
        return false;
      }
      if !turn.encodes {
        PopData(Unencodable(slot));
        return true;
      }
      if !turn.accepted {
        return false;
      }
      SendHead(slot, turn, channel);
      return true;
    }

    static lemma SendDataTurn(s: State, turns: seq<Turn>, i: nat, channel: nat, budget: nat)
      requires i < |turns| && budget > 0 && s.active && s.data != []
      ensures var next := TakeTurn(s, turns[i], channel);
        SendData(s, turns[i..], channel, budget)
        == if next.Some? then SendData(next.value, turns[i + 1..], channel, budget - 1) else s
    {
      assert turns[i..][0] == turns[i] && turns[i..][1..] == turns[i + 1..];
    }

    method ServeData(turns: seq<Turn>, channel: nat)
      requires Valid()
      modifies this, frames
      ensures Valid() && Abs() == SendData(old(Abs()), turns, channel, BUDGET)
    {
      var i := 0;
      while i < BUDGET && i < |turns| && active && frames.count != 0
        invariant 0 <= i <= BUDGET && i <= |turns| && Valid()
        invariant SendData(Abs(), turns[i..], channel, BUDGET - i) == SendData(old(Abs()), turns, channel, BUDGET)
        decreases BUDGET - i
      {
        SendDataTurn(Abs(), turns, i, channel, BUDGET - i);
        var more := ServeHead(turns[i], channel);
        if !more {
          return;
        }
        i := i + 1;
      }
    }

    method ServeActions(actions: seq<Action>)
      requires Valid()
      modifies this`log
      ensures Valid() && Abs() == SendActions(old(Abs()), actions)
    {
      for i := 0 to |actions|
        invariant Valid() && SendActions(Abs(), actions[i..]) == SendActions(old(Abs()), actions)
      {
        assert actions[i..][0] == actions[i] && actions[i..][1..] == actions[i + 1..];
        var a := actions[i];
        if a.due && (a.needsActive ==> active) && phase.Open? && !stopRequested && !fault && a.permitted && a.built {
          Note(ActionSent);
        }
      }
    }

    method ServiceTransmit(e: FireEnv)
      requires Valid()
      modifies this, frames
      ensures Valid() && Abs() == ServeTransmit(old(Abs()), e)
    {
      ServeActions(e.actions);
      ServeData(e.turns, e.channel);
      if e.end > e.done + 2500 {
        WritePump(e.done + 1000);
      }
    }

    // -----------------------------------------------------------------------
    // The timer handler
    // -----------------------------------------------------------------------

    method HandleTimer(e: FireEnv)
      requires Valid()
      modifies this, frames, frames.slots
      ensures Valid() && Abs() == TimerFired(old(Abs()), e)
      decreases e, 1
    {
      if !servicing {
        ConsumeTimer();
        if active {
          ServiceTimer(e);
        }
      }
    }

    method ConsumeTimer()
      requires Valid()
      modifies this`timer
      ensures Valid() && Abs() == Spent(old(Abs()))
    {
      if timer.Armed? {
        timer := Idle;
      }
    }

    method SetServicing(on: bool)
      requires Valid()
      modifies this`servicing
      ensures Valid() && Abs() == old(Abs()).(servicing := on)
    {
      servicing := on;
    }

    method ServiceTimer(e: FireEnv)
      requires Valid()
      modifies this, frames, frames.slots
      ensures Valid() && Abs() == Serviced(old(Abs()), e)
      decreases e, 0
    {
      SetServicing(true);
      WriteWindow(0);
      WritePump(0);
      Note(TimerRenewed);
      Relaunch(e.launch);
      ServiceScheduler(e.service);
      if phase.Failed? {
        SetFault();
      }
      Finish(e);
    }

    method Relaunch(l: Launch)
      requires Valid()
      modifies this
      ensures Valid() && Abs() == Relaunched(old(Abs()), l)
    {
      if settings.synchronize && phase.Stopped? {
        var ok := StartWhenAuthorized(l);
        if !ok {
          SetFault();
        }
      }
    }

    method Finish(e: FireEnv)
      requires Valid()
      modifies this, frames
      ensures Valid() && Abs() == Finished(old(Abs()), e)
    {
      if active && !fault && phase.Open? {
        ServiceTransmit(e);
      }
      Conclude(e.retry, e.armed);
    }

    method Conclude(retry: nat, armed: bool)
      requires Valid()
      modifies this`pumpDeadline, this`timer, this`servicing
      ensures Valid() && Abs() == Concluded(old(Abs()), retry, armed)
    {
      if active && settings.synchronize && !fault && phase.Stopped? {
        WritePump(retry + RETRY);
      }
      SetServicing(false);
      if active {
        var _ := RearmTimer(armed);
      }
    }

    method Dispatch(op: Op)
      requires Valid()
      modifies this, frames, frames.slots
      ensures Valid() && Abs() == Step(old(Abs()), op)
      decreases op, 1
    {
      if op.PeerCall? {
        CallPeers(op.request, op.replies);
      } else if op.Report? {
        var _ := SnapshotSettings();
      } else {
        Note(Called(CallOf(op), InCall(Abs())));
        Handle(op);
      }
    }

    method Handle(op: Op)
      requires Valid() && OnRadio(op)
      modifies this, frames, frames.slots
      ensures Valid() && Abs() == Perform(old(Abs()), op)
      decreases op, 0
    {
      match op
      case OpenBackend(address, native, added, inited) => var _ := OpenInterface(address, native, added, inited);
      case Activate(on, e) => SetActive(on, e);
      case Revoke => Quit();
      case Close(stop, quiesced) => CloseInterface(stop, quiesced);
      case Request(version, edit, e) => HandleRequest(version, edit, e);
      case SetAddress(address, quiesced, added, inited) => ChangeAddress(address, quiesced, added, inited);
      case Transmit(frame, now, armed) => var _ := TransmitEthernet(frame, now, armed);
      case Fire(e) => HandleTimer(e);
    }
  }
}
