/** The station front end as the driver runs it: an object whose methods update its flags in
    place and call out in the middle, and a ring of 32 messages. Proved against `Station`. */
module NativeStationClass {
  import opened Common
  import opened Rings
  import opened Station

  class NativeStation {
    var stopping: bool
    var scanPending: bool
    var scanCompleted: bool
    var scanSkip: bool
    var filter: Filter
    var joinPending: bool
    var joinDeferred: bool
    var assocNotified: bool
    var firstBeaconNotified: bool
    var portAuthorized: bool
    var linkIndicated: bool
    var bssValid: bool
    var lqmBeacons: nat
    var lqmReported: nat
    const messages: Ring<Message>
    ghost var log: seq<Event>

    ghost predicate Valid()
      reads this, messages
    {
      messages.Valid() && messages.slots.Length == QUEUE
    }

    ghost function Abs(): State
      requires Valid()
      reads this, messages, messages.slots
    {
      State(stopping, scanPending, scanCompleted, scanSkip, filter, joinPending, joinDeferred, assocNotified,
            firstBeaconNotified, portAuthorized, linkIndicated, bssValid, lqmBeacons, lqmReported,
            messages.Contents(), log)
    }

    constructor ()
      ensures Valid() && fresh(messages) && fresh(messages.slots) && Abs() == START
    {
      stopping, scanPending, scanCompleted, scanSkip, filter := false, false, false, false, ANY;
      joinPending, joinDeferred, assocNotified, firstBeaconNotified := false, false, false, false;
      portAuthorized, linkIndicated, bssValid := false, false, false;
      lqmBeacons, lqmReported := 0, 0;
      messages := new Ring<Message>(QUEUE);
      log := [];
    }

    ghost method Note(e: Event)
      requires Valid()
      modifies this`log
      ensures Valid() && Abs() == old(Abs()).Log(e)
    {
      log := log + [e];
    }

    // -----------------------------------------------------------------------
    // The message queue
    // -----------------------------------------------------------------------

    method PostMessage(m: Message) returns (queued: bool)
      requires Valid()
      modifies this`log, messages, messages.slots
      ensures Valid() && Abs() == Post(old(Abs()), m) && queued == CanQueue(old(Abs()))
    {
      queued := !stopping && messages.count != QUEUE;
      if queued {
        messages.Push(m);
      }
      log := log + [Posted(m, queued)];
    }

    method DrainMessages()
      requires Valid()
      modifies this`log, messages
      ensures Valid() && Abs() == Drain(old(Abs()))
    {
      while !stopping && messages.count != 0
        invariant Valid() && Drain(Abs()) == Drain(old(Abs()))
        decreases messages.count
      {
        DeliverMessage();
      }
    }

    method DeliverMessage()
      requires Valid() && !stopping && messages.count != 0
      modifies this`log, messages
      ensures Valid() && Abs() == DeliverOne(old(Abs())) && messages.count == old(messages.count) - 1
    {
      var m := messages.Pop();
      log := log + [Delivered(m)];
    }

    // -----------------------------------------------------------------------
    // Scans
    // -----------------------------------------------------------------------

    method PublishBeacon(n: Node) returns (published: bool)
      requires Valid()
      modifies this`bssValid
      ensures Valid() && Abs() == Publish(old(Abs()), n) && published == n.publishable
    {
      published := n.publishable;
      if published && assocNotified && n.mine {
        bssValid := n.fits;
      }
    }

    method FinishWclScan(status: IOReturn, nodes: seq<Node>)
      requires Valid()
      modifies this`scanPending, this`scanCompleted, this`bssValid, this`log
      ensures Valid() && Abs() == FinishScan(old(Abs()), status, nodes)
    {
      if scanPending {
        ghost var s := Abs().(scanPending := false, scanCompleted := false);
        scanPending, scanCompleted := false, false;
        assert Abs() == s;
        if status == Success {
          ReplayCache(nodes);
        }
        assert Abs() == Replay(s, if status == Success then Replays(s.filter, nodes) else []);
        Note(ScanDone(status));
      }
    }

    method ReplayCache(nodes: seq<Node>)
      requires Valid()
      modifies this`bssValid, this`log
      ensures Valid() && Abs() == Replay(old(Abs()), Replays(filter, nodes))
    {
      for i := 0 to |nodes|
        invariant Valid() && Replay(Abs(), Replays(filter, nodes[i..])) == Replay(old(Abs()), Replays(filter, nodes))
      {
        assert nodes[i..][0] == nodes[i] && nodes[i..][1..] == nodes[i + 1..];
        if filter.Selects(nodes[i]) {
          var published := PublishBeacon(nodes[i]);
          if published {
            Note(Replayed(nodes[i]));
          }
        }
      }
    }

    // -----------------------------------------------------------------------
    // Joins
    // -----------------------------------------------------------------------

    method FinishWclJoin(status: nat)
      requires Valid()
      modifies this`joinPending, this`joinDeferred, this`log, messages, messages.slots
      ensures Valid() && Abs() == FinishJoin(old(Abs()), status)
    {
      if joinPending {
        ghost var s := Abs().(joinPending := false, joinDeferred := false);
        joinPending, joinDeferred := false, false;
        assert Abs() == s;
        var _ := PostMessage(ConnectComplete(status));
      }
    }

    method LeaveWclNetwork(leaving: seq<Signal>)
      requires Valid()
      modifies this, messages, messages.slots
      ensures Valid() && Abs() == LeaveNetwork(old(Abs()), leaving)
      decreases leaving, 1
    {
      LeaveJoin();
      Receive(leaving);
    }

    method LeaveJoin()
      requires Valid()
      modifies this`joinPending, this`joinDeferred, this`bssValid, this`log
      ensures Valid() && Abs() == Left(old(Abs()))
    {
      if joinPending {
        Note(JoinWithdrawn);
      }
      ForgetJoin();
    }

    method ForgetJoin()
      requires Valid()
      modifies this`joinPending, this`joinDeferred, this`bssValid
      ensures Valid() && Abs() == old(Abs()).(joinPending := false, joinDeferred := false, bssValid := false)
    {
      joinPending, joinDeferred, bssValid := false, false, false;
    }

    method DeferJoin()
      requires Valid()
      modifies this`joinPending, this`joinDeferred, this`log
      ensures Valid() && Abs() == Deferral(old(Abs()))
    {
      joinDeferred, joinPending := true, true;
      log := log + [JoinDeferred];
    }

    method MarkStarted()
      requires Valid()
      modifies this`joinPending, this`assocNotified, this`firstBeaconNotified, this`portAuthorized, this`bssValid,
        this`log
      ensures Valid() && Abs() == Started(old(Abs()))
    {
      ghost var s := Abs().(joinPending := true, assocNotified := false, firstBeaconNotified := false,
                            portAuthorized := false, bssValid := false);
      bssValid, joinPending := false, true;
      assocNotified, firstBeaconNotified, portAuthorized := false, false, false;
      assert Abs() == s;
      Note(JoinStarted);
    }

    method DepartWclNetwork(a: Attempt)
      requires Valid()
      modifies this, messages, messages.slots
      ensures Valid() && Abs() == Departed(old(Abs()), a)
      decreases a, 0
    {
      if Connected(a.link) {
        LeaveWclNetwork(a.leaving);
      }
    }

    method StartWclJoin(reconfiguring: bool, a: Attempt) returns (status: IOReturn)
      requires Valid()
      modifies this, messages, messages.slots
      ensures Valid() && Abs() == StartJoin(old(Abs()), reconfiguring, a)
      ensures status == StartStatus(old(Abs()), reconfiguring, a)
      decreases a, 1
    {
      if a.supported && !joinPending && reconfiguring && a.up {
        DeferJoin();
        return Success;
      }
      if !a.supported || !a.running || joinPending || scanPending {
        return if !a.supported then Unsupported else Busy;
      }
      DepartWclNetwork(a);
      if a.setup != Success {
        return a.setup;
      }
      MarkStarted();
      MoveToScan(a);
      return if !a.scanning && a.moveFails then Error else Success;
    }

    method MoveToScan(a: Attempt)
      requires Valid()
      modifies this, messages, messages.slots
      ensures Valid() && Abs() == Move(old(Abs()), a)
      decreases a, 0
    {
      if !a.scanning {
        Receive(a.moving);
        if a.moveFails {
          joinPending := false;
        }
      }
    }

    method ResumeWclJoin(a: Attempt)
      requires Valid()
      modifies this, messages, messages.slots
      ensures Valid() && Abs() == ResumeJoin(old(Abs()), a)
      decreases a, 2
    {
      if joinDeferred {
        ghost var s := Abs().(joinDeferred := false, joinPending := false);
        joinDeferred, joinPending := false, false;
        assert Abs() == s;
        var status := StartWclJoin(false, a);
        if status != Success {
          ghost var t := Abs().(joinPending := true);
          joinPending := true;
          assert Abs() == t;
          FinishWclJoin(1);
        }
      }
    }

    // -----------------------------------------------------------------------
    // Signals
    // -----------------------------------------------------------------------

    /** The signals that arrive inside one call-out. */
    method Receive(signals: seq<Signal>)
      requires Valid()
      modifies this, messages, messages.slots
      ensures Valid() && Abs() == HearAll(old(Abs()), signals)
      decreases signals, 0
    {
      for i := 0 to |signals|
        invariant Valid() && HearAll(Abs(), signals[i..]) == HearAll(old(Abs()), signals)
      {
        assert signals[i..][0] == signals[i] && signals[i..][1..] == signals[i + 1..];
        HandleEvent(signals[i]);
      }
      assert signals[|signals|..] == [];
    }

    method HandleEvent(signal: Signal)
      requires Valid()
      modifies this, messages, messages.slots
      ensures Valid() && Abs() == HearOne(old(Abs()), signal)
      decreases signal, 0
    {
      if stopping {
        return;
      }
      match signal
      case PortSignal(up) => HandleLink(up);
      case Ready(a) => ResumeWclJoin(a);
      case Halted(reconfiguring) => HandleHalt(reconfiguring);
      case Beacon(n, frame, linkScanning) => HandleBeacon(n, frame, linkScanning);
      case ScanFinished =>
        if scanPending {
          HandleScanFinished();
        }
      case AssocDone(status) => HandleAssoc(status);
      case Deauthenticated =>
        var _ := PostMessage(Deauth);
        FinishWclJoin(1);
      case JoinTimeout(leaving) =>
        FinishWclJoin(1);
        LeaveWclNetwork(leaving);
      case ScanTimer(nodes) =>
        FinishWclScan(if scanCompleted then Success else Timeout, nodes);
    }

    method HandleScanFinished()
      requires Valid() && scanPending
      modifies this`scanSkip, this`scanCompleted, this`log
      ensures Valid() && Abs() == HearScanFinished(old(Abs()))
    {
      if scanSkip {
        scanSkip := false;
      } else {
        scanCompleted := true;
      }
      log := log + [ScanHeard];
    }

    method HandleLink(up: bool)
      requires Valid()
      modifies this, messages, messages.slots
      ensures Valid() && Abs() == HearPort(old(Abs()), up)
    {
      SetPort(up);
      if !up && linkIndicated {
        LoseLink();
      }
      if up && joinPending && firstBeaconNotified {
        FinishWclJoin(0);
      }
    }

    method LoseLink()
      requires Valid()
      modifies this`linkIndicated, this`bssValid, this`log, messages, messages.slots
      ensures Valid() && Abs() == LinkLost(old(Abs()))
    {
      MarkUnlinked();
      var _ := PostMessage(LinkStatus(false));
    }

    method MarkUnlinked()
      requires Valid()
      modifies this`linkIndicated, this`bssValid
      ensures Valid() && Abs() == old(Abs()).(linkIndicated := false, bssValid := false)
    {
      linkIndicated, bssValid := false, false;
    }

    method SetPort(up: bool)
      requires Valid()
      modifies this`portAuthorized, this`log
      ensures Valid() && Abs() == old(Abs()).(portAuthorized := up).Log(PortChanged(up))
    {
      portAuthorized := up;
      log := log + [PortChanged(up)];
    }

    method HandleHalt(reconfiguring: bool)
      requires Valid()
      modifies this, messages, messages.slots
      ensures Valid() && Abs() == HearHalted(old(Abs()), reconfiguring)
    {
      FinishWclScan(if reconfiguring then Aborted else Offline, []);
      FinishWclJoin(1);
      SetPort(false);
    }

    method HandleAssoc(status: nat)
      requires Valid()
      modifies this, messages, messages.slots
      ensures Valid() && Abs() == HearAssoc(old(Abs()), status)
    {
      if joinPending && !assocNotified {
        ReportAssoc(status);
        if status != 0 {
          FinishWclJoin(status);
        }
      }
    }

    method ReportAssoc(status: nat)
      requires Valid()
      modifies this`assocNotified, this`log, messages, messages.slots
      ensures Valid() && Abs() == AssocReported(old(Abs()), status)
    {
      MarkAssociated(status == 0);
      var _ := PostMessage(AssocComplete(status));
    }

    method MarkAssociated(associated: bool)
      requires Valid()
      modifies this`assocNotified
      ensures Valid() && Abs() == old(Abs()).(assocNotified := associated)
    {
      assocNotified := associated;
    }

    method HandleBeacon(n: Node, frame: bool, linkScanning: bool)
      requires Valid()
      modifies this, messages, messages.slots
      ensures Valid() && Abs() == HearBeacon(old(Abs()), n, frame, linkScanning)
    {
      CountWclBeacon(n, frame);
      if scanPending || joinPending || linkScanning || (portAuthorized && n.mine) {
        var _ := PublishBeacon(n);
      }
      if joinPending && assocNotified && !firstBeaconNotified && n.mine && bssValid {
        ReportFirstBeacon();
      }
    }

    method ReportFirstBeacon()
      requires Valid()
      modifies this, messages, messages.slots
      ensures Valid() && Abs() == FirstBeaconSeen(old(Abs()))
    {
      ReportLink();
      if portAuthorized {
        FinishWclJoin(0);
      }
    }

    method ReportLink()
      requires Valid()
      modifies this`firstBeaconNotified, this`linkIndicated, this`log, messages, messages.slots
      ensures Valid() && Abs() == LinkReported(old(Abs()))
    {
      MarkLinked();
      var _ := PostMessage(LinkStatus(true));
      var _ := PostMessage(FirstBeacon);
    }

    method MarkLinked()
      requires Valid()
      modifies this`firstBeaconNotified, this`linkIndicated
      ensures Valid() && Abs() == old(Abs()).(firstBeaconNotified := true, linkIndicated := true)
    {
      firstBeaconNotified, linkIndicated := true, true;
    }

    method CountWclBeacon(n: Node, frame: bool)
      requires Valid()
      modifies this, messages, messages.slots
      ensures Valid() && Abs() == CountBeacon(old(Abs()), n, frame)
    {
      if assocNotified && (joinPending || portAuthorized) && n.mine && frame {
        AddBeacon();
        if portAuthorized && lqmBeacons % 8 == 0 {
          ReportWclBeacons();
        }
      }
    }

    method AddBeacon()
      requires Valid()
      modifies this`lqmBeacons, this`log
      ensures Valid() && Abs() == Counted(old(Abs()))
    {
      lqmBeacons := (lqmBeacons + 1) % WORD;
      log := log + [BeaconCounted];
    }

    method ReportWclBeacons()
      requires Valid()
      modifies this, messages, messages.slots
      ensures Valid() && Abs() == ReportBeacons(old(Abs()))
    {
      var delta := (lqmBeacons - lqmReported) % WORD;
      if delta != 0 {
        var queued := PostMessage(LqmUpdate(delta));
        if queued {
          lqmReported := lqmBeacons;
        }
      }
    }

    // -----------------------------------------------------------------------
    // Commands
    // -----------------------------------------------------------------------

    method BeginWclScan(decoded: bool, wanted: Filter, env: ScanEnv) returns (status: IOReturn)
      requires Valid()
      modifies this, messages, messages.slots
      ensures Valid() && Abs() == BeginScan(old(Abs()), decoded, wanted, env)
      ensures status == ScanStatus(old(Abs()), decoded, wanted, env)
    {
      if !decoded {
        return BadArgument;
      }
      if !env.running {
        return NotReady;
      }
      if scanPending || joinPending || env.background || env.link.Authenticating? || env.link.Associating? {
        return Busy;
      }
      if wanted.restricted && !env.usable {
        return Unsupported;
      }
      OpenScan(wanted, env);
      status := RunScan(env);
    }

    method OpenScan(wanted: Filter, env: ScanEnv)
      requires Valid()
      modifies this`scanPending, this`scanCompleted, this`scanSkip, this`filter, this`log
      ensures Valid() && Abs() == ScanBegun(old(Abs()), wanted, env)
    {
      MarkScanning(wanted, env.link.Scanning? && env.skip);
      Note(ScanOpened(wanted, env.link.Scanning? && env.skip));
    }

    method MarkScanning(wanted: Filter, skip: bool)
      requires Valid()
      modifies this`scanPending, this`scanCompleted, this`scanSkip, this`filter
      ensures Valid()
      ensures Abs() == old(Abs()).(scanPending := true, scanCompleted := false, scanSkip := skip, filter := wanted)
    {
      scanPending, scanCompleted, scanSkip, filter := true, false, skip, wanted;
    }

    method AnswerFromCache()
      requires Valid()
      modifies this`scanCompleted, this`log
      ensures Valid() && Abs() == Cached(old(Abs()))
    {
      scanCompleted := true;
      log := log + [ScanCached];
    }

    method RunScan(env: ScanEnv) returns (status: IOReturn)
      requires Valid()
      modifies this, messages, messages.slots
      ensures Valid() && Abs() == ScanOpenedWith(old(Abs()), env)
      ensures status == if env.link.Running? && env.canBackground && env.moveFails then Busy
                        else if !env.link.Running? && !env.link.Scanning? && env.moveFails then Error else Success
    {
      if env.link.Running? && !env.canBackground {
        AnswerFromCache();
        FinishWclScan(Success, env.nodes);
      } else if !env.link.Scanning? {
        Receive(env.moving);
        if env.moveFails {
          scanPending := false;
          return if env.link.Running? then Busy else Error;
        }
      }
      return Success;
    }

    method WclCommand(c: Command)
      requires Valid()
      modifies this, messages, messages.slots
      ensures Valid() && Abs() == Perform(old(Abs()), c)
    {
      if stopping {
        return;
      }
      match c
      case Scan(decoded, wanted, env) =>
        var status := BeginWclScan(decoded, wanted, env);
        Note(ScanAnswered(status));
      case AbortScan => FinishWclScan(Aborted, []);
      case Associate(reconfiguring, a) =>
        var status := StartWclJoin(reconfiguring, a);
        Note(JoinAnswered(status));
      case AbortJoin(leaving) => LeaveWclNetwork(leaving);
      case Leave(leaving) => LeaveWclNetwork(leaving);
    }

    method StopWcl()
      requires Valid()
      modifies this, messages
      ensures Valid() && Abs() == Halt(old(Abs()))
    {
      if !stopping {
        AbandonScan();
        AbandonJoin();
        Silence();
      }
    }

    method AbandonScan()
      requires Valid()
      modifies this`scanPending, this`log
      ensures Valid() && Abs() == DropScan(old(Abs()))
    {
      if scanPending {
        scanPending := false;
        log := log + [ScanDropped];
      }
    }

    method AbandonJoin()
      requires Valid()
      modifies this`joinPending, this`joinDeferred, this`log
      ensures Valid() && Abs() == DropJoin(old(Abs()))
    {
      if joinPending {
        joinPending, joinDeferred := false, false;
        log := log + [JoinWithdrawn];
      }
    }

    method Silence()
      requires Valid()
      modifies this`stopping, this`log, messages
      ensures Valid() && Abs() == Silenced(old(Abs()))
    {
      stopping := true;
      messages.Clear();
      log := log + [Stopping];
    }
  }
}
