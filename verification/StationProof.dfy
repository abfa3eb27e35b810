/** What the station front end keeps across every command, signal and delivery. */
module StationProof {
  import opened Common
  import opened Station

  /** The flags agree with what was reported about the current join. */
  predicate JoinInv(s: State, b: JoinView) {
    && b.lawful && s.portAuthorized == b.port && s.linkIndicated == b.link
    && (b.progress.Reported? ==>
          && b.progress.stage in {0, 1, 3}
          && (s.assocNotified <==> b.progress.stage >= 1)
          && (s.firstBeaconNotified <==> b.progress.stage == 3))
    && (s.joinPending && s.joinDeferred ==> b.progress == Waiting)
    && (s.joinPending && !s.joinDeferred ==> b.progress.Reported?)
    && (s.joinPending ==> !b.latest.ended)
  }

  predicate Flags(s: State) {
    && (s.joinDeferred ==> s.joinPending)
    && (s.scanPending && s.joinPending ==> s.joinDeferred)
    && (s.firstBeaconNotified ==> s.assocNotified)
    && (s.stopping ==> !s.scanPending && !s.joinPending && s.queue == [])
  }

  predicate ScanInv(s: State, b: ScanView) {
    && b.lawful && b.filter == s.filter && 1 <= b.needed <= 2
    && (s.scanPending ==> (s.scanCompleted <==> b.Over()) && (s.scanSkip <==> b.needed == 2 && b.heard == 0))
  }

  /** The queue holds what was queued and not delivered. */
  predicate QueueInv(s: State, b: QueueView) {
    && b.lawful && |s.queue| <= QUEUE && b.stopping == s.stopping
    && (!s.stopping ==> b.queued == b.delivered + s.queue)
    && b.delivered <= b.queued
  }

  /** Beacons reported and still to be reported make up the beacons counted, modulo 2^32. */
  predicate BeaconInv(s: State, b: BeaconView) {
    && s.lqmBeacons < WORD && s.lqmReported < WORD
    && Gap(b, s.lqmBeacons, s.lqmReported) == 0
  }

  function Gap(b: BeaconView, beacons: nat, last: nat): nat {
    (b.reported + beacons - last - b.counted) % WORD
  }

  predicate Inv(s: State) {
    && Flags(s) && JoinInv(s, Joins(s.log)) && ScanInv(s, Scans(s.log))
    && QueueInv(s, Messages(s.log)) && BeaconInv(s, Beacons(s.log))
  }

  /** Joins accepted and strays, not yet accounted for by a completion, a withdrawal or being
      pending. */
  function Balance(s: State): int {
    var b := Joins(s.log);
    b.accepted + b.strays - b.completed - b.withdrawn - (if s.joinPending then 1 else 0)
  }

  function ScanBalance(s: State): int {
    var b := Scans(s.log);
    b.accepted + b.strays - b.done - b.dropped - (if s.scanPending then 1 else 0)
  }

  /** What a signal notes about the latest join and scan: that it ended, if it did. */
  predicate Follows(s: State, t: State) {
    var b, c, x, y := Joins(s.log), Joins(t.log), Scans(s.log), Scans(t.log);
    && c.latest == b.latest.(ended := b.latest.ended || (s.joinPending && !t.joinPending))
    && c.strays == b.strays && (!s.joinDeferred ==> c.waived == b.waived)
    && y.answered == x.answered && y.strays == x.strays
    && y.ended == (x.ended || (s.scanPending && !t.scanPending))
  }

  /** What a signal leaves as it was: neither balance moves, and nothing becomes pending. */
  predicate Settles(s: State, t: State) {
    && Follows(s, t) && Balance(t) == Balance(s)
    && ScanBalance(t) == ScanBalance(s)
    && t.stopping == s.stopping && t.filter == s.filter
    && (!s.joinPending ==> !t.joinPending)
    && (if s.joinDeferred then t.joinDeferred == t.joinPending else !t.joinDeferred)
    && (!s.scanPending ==> !t.scanPending)
  }

  // -------------------------------------------------------------------------
  // Posting
  // -------------------------------------------------------------------------

  /** All that posting changes. */
  lemma PostFrame(s: State, m: Message)
    ensures var t := Post(s, m);
      && t == s.(queue := t.queue, log := t.log)
      && Joins(t.log) == NoteReport(Joins(s.log), m) && Scans(t.log) == Scans(s.log)
      && (!m.LqmUpdate? ==> Beacons(t.log) == Beacons(s.log))
  {
  }

  lemma PostQueue(s: State, m: Message)
    requires QueueInv(s, Messages(s.log))
    ensures QueueInv(Post(s, m), Messages(Post(s, m).log))
  {
    if CanQueue(s) {
      QueuedKeeps(s, m);
    } else {
      RefusedKeeps(s, m);
    }
  }

  lemma QueuedKeeps(s: State, m: Message)
    requires QueueInv(s, Messages(s.log)) && CanQueue(s)
    ensures QueueInv(Post(s, m), Messages(Post(s, m).log))
  {
    var b := Messages(s.log);
    assert (b.delivered + s.queue) + [m] == b.delivered + (s.queue + [m]);
  }

  lemma RefusedKeeps(s: State, m: Message)
    requires QueueInv(s, Messages(s.log)) && !CanQueue(s)
    ensures QueueInv(Post(s, m), Messages(Post(s, m).log))
  {
    assert Messages(Post(s, m).log) == Messages(s.log);
  }

  lemma PostKeeps(s: State, m: Message)
    requires Inv(s) && !m.LqmUpdate? && !m.ConnectComplete? && !m.LinkStatus? && !s.stopping
    requires Advance(Joins(s.log).progress, m) == Joins(s.log).progress
    ensures Inv(Post(s, m)) && Settles(s, Post(s, m))
  {
    PostFrame(s, m);
    PostQueue(s, m);
  }

  lemma FinishJoinKeeps(s: State, status: nat)
    requires Inv(s) && !s.stopping
    requires status == 0 && s.joinPending ==> s.portAuthorized && s.firstBeaconNotified
    ensures Inv(FinishJoin(s, status)) && Settles(s, FinishJoin(s, status)) && !FinishJoin(s, status).joinPending
  {
    if s.joinPending {
      var t := s.(joinPending := false, joinDeferred := false);
      PostFrame(t, ConnectComplete(status));
      PostQueue(t, ConnectComplete(status));
    }
  }

  // -------------------------------------------------------------------------
  // Scans
  // -------------------------------------------------------------------------

  lemma PublishKeeps(s: State, n: Node)
    requires Inv(s)
    ensures Inv(Publish(s, n)) && Settles(s, Publish(s, n)) && Publish(s, n) == s.(bssValid := Publish(s, n).bssValid)
  {
  }

  lemma {:induction false} ReplaysMatch(filter: Filter, nodes: seq<Node>)
    ensures forall n :: n in Replays(filter, nodes) ==> n in nodes && filter.Selects(n) && n.publishable
    ensures forall n :: n in nodes && filter.Selects(n) && n.publishable ==> n in Replays(filter, nodes)
  {
    if nodes != [] {
      ReplaysMatch(filter, nodes[1..]);
      assert nodes == [nodes[0]] + nodes[1..];
    }
  }

  lemma {:induction false} ReplayKeeps(s: State, nodes: seq<Node>)
    requires Inv(s) && forall n :: n in nodes ==> s.filter.Selects(n)
    ensures Inv(Replay(s, nodes)) && Settles(s, Replay(s, nodes))
    ensures Replay(s, nodes).joinPending == s.joinPending && Replay(s, nodes).scanPending == s.scanPending
    ensures Scans(Replay(s, nodes).log).Over() == Scans(s.log).Over()
    decreases |nodes|
  {
    if nodes != [] {
      var t := Publish(s, nodes[0]).Log(Replayed(nodes[0]));
      ReplayedKeeps(s, nodes[0]);
      ReplayKeeps(t, nodes[1..]);
      SettlesTransitive(s, t, Replay(s, nodes));
    }
  }

  lemma ReplayedKeeps(s: State, n: Node)
    requires Inv(s) && s.filter.Selects(n)
    ensures var t := Publish(s, n).Log(Replayed(n));
      && Inv(t) && Settles(s, t) && t.joinPending == s.joinPending && t.scanPending == s.scanPending
      && t.filter == s.filter && Scans(t.log).Over() == Scans(s.log).Over()
  {
    PublishKeeps(s, n);
  }

  /** A status with which a pending scan may end. */
  predicate Ends(s: State, status: IOReturn) {
    s.scanPending ==> (status == Success ==> s.scanCompleted) && (status == Timeout ==> !s.scanCompleted)
  }

  lemma FinishScanKeeps(s: State, status: IOReturn, nodes: seq<Node>)
    requires Inv(s) && Ends(s, status)
    ensures Inv(FinishScan(s, status, nodes)) && Settles(s, FinishScan(s, status, nodes))
    ensures FinishScan(s, status, nodes).joinPending == s.joinPending && !FinishScan(s, status, nodes).scanPending
  {
    if s.scanPending {
      var results := if status == Success then Replays(s.filter, nodes) else [];
      ReplaysMatch(s.filter, nodes);
      ScanEndKeeps(s, status, results);
    }
  }

  lemma ScanEndKeeps(s: State, status: IOReturn, results: seq<Node>)
    requires Inv(s) && s.scanPending && Ends(s, status) && forall n :: n in results ==> s.filter.Selects(n)
    ensures var t := Replay(s.(scanPending := false, scanCompleted := false), results).Log(ScanDone(status));
      Inv(t) && Settles(s, t) && t.joinPending == s.joinPending && !t.scanPending
  {
    var t := s.(scanPending := false, scanCompleted := false);
    ReplayKeeps(t, results);
    ScanDoneKeeps(s, Replay(t, results), status);
  }

  lemma ScanDoneKeeps(s: State, u: State, status: IOReturn)
    requires Inv(u) && s.scanPending && Settles(s.(scanPending := false, scanCompleted := false), u)
    requires (status == Success ==> Scans(u.log).Over()) && (status == Timeout ==> !Scans(u.log).Over())
    requires u.joinPending == s.joinPending && !u.scanPending
    ensures var t := u.Log(ScanDone(status));
      Inv(t) && Settles(s, t) && t.joinPending == s.joinPending && !t.scanPending
  {
  }

  // -------------------------------------------------------------------------
  // Signals without call-outs
  // -------------------------------------------------------------------------

  lemma PortKeeps(s: State, up: bool)
    requires Inv(s) && !s.stopping
    ensures var t := s.(portAuthorized := up).Log(PortChanged(up)); Inv(t) && Settles(s, t)
  {
  }

  lemma LinkLostKeeps(s: State)
    requires Inv(s) && !s.stopping && s.linkIndicated
    ensures Inv(LinkLost(s)) && Settles(s, LinkLost(s))
  {
    PostFrame(s.(linkIndicated := false, bssValid := false), LinkStatus(false));
    PostQueue(s.(linkIndicated := false, bssValid := false), LinkStatus(false));
  }

  lemma HearPortKeeps(s: State, up: bool)
    requires Inv(s) && !s.stopping
    ensures Inv(HearPort(s, up)) && Settles(s, HearPort(s, up))
  {
    var t := s.(portAuthorized := up).Log(PortChanged(up));
    PortKeeps(s, up);
    if up && t.joinPending && t.firstBeaconNotified {
      FinishJoinKeeps(t, 0);
      SettlesTransitive(s, t, FinishJoin(t, 0));
    } else if !up && t.linkIndicated {
      LinkLostKeeps(t);
      SettlesTransitive(s, t, LinkLost(t));
    }
  }

  lemma HearHaltedKeeps(s: State, reconfiguring: bool)
    requires Inv(s) && !s.stopping
    ensures Inv(HearHalted(s, reconfiguring)) && Settles(s, HearHalted(s, reconfiguring))
  {
    var status := if reconfiguring then Aborted else Offline;
    FinishScanKeeps(s, status, []);
    FinishJoinKeeps(FinishScan(s, status, []), 1);
    PortKeeps(FinishJoin(FinishScan(s, status, []), 1), false);
  }

  lemma AssocPostedKeeps(s: State, status: nat)
    requires Inv(s) && !s.stopping && s.joinPending && !s.assocNotified
    ensures var t := AssocReported(s, status);
      Inv(t) && Settles(s, t) && t.joinPending && !t.stopping
  {
    PostFrame(s.(assocNotified := status == 0), AssocComplete(status));
    PostQueue(s.(assocNotified := status == 0), AssocComplete(status));
  }

  lemma HearAssocKeeps(s: State, status: nat)
    requires Inv(s) && !s.stopping
    ensures Inv(HearAssoc(s, status)) && Settles(s, HearAssoc(s, status))
  {
    if s.joinPending && !s.assocNotified {
      var t := AssocReported(s, status);
      AssocPostedKeeps(s, status);
      if status != 0 {
        FinishJoinKeeps(t, status);
        SettlesTransitive(s, t, FinishJoin(t, status));
      }
    }
  }

  lemma CountingIsExact(b: BeaconView, beacons: nat, last: nat)
    requires Gap(b, beacons, last) == 0
    ensures Gap(b.(counted := b.counted + 1), (beacons + 1) % WORD, last) == 0
  {
  }

  lemma ReportingIsExact(b: BeaconView, beacons: nat, last: nat)
    requires Gap(b, beacons, last) == 0
    ensures Gap(b.(reported := b.reported + (beacons - last) % WORD), beacons, beacons) == 0
  {
  }

  lemma ReportKeeps(s: State)
    requires Inv(s) && !s.stopping
    ensures Inv(ReportBeacons(s)) && Settles(s, ReportBeacons(s)) && ReportBeacons(s).joinPending == s.joinPending
  {
    if Unreported(s) != 0 {
      UpdateKeeps(s);
    }
  }

  lemma UpdateKeeps(s: State)
    requires Inv(s) && !s.stopping
    ensures Inv(Update(s)) && Settles(s, Update(s)) && Update(s).joinPending == s.joinPending
  {
    PostFrame(s, LqmUpdate(Unreported(s)));
    PostQueue(s, LqmUpdate(Unreported(s)));
    UpdateBeacons(s);
  }

  lemma UpdateBeacons(s: State)
    requires BeaconInv(s, Beacons(s.log))
    ensures BeaconInv(Update(s), Beacons(Update(s).log))
  {
    ReportingIsExact(Beacons(s.log), s.lqmBeacons, s.lqmReported);
  }

  lemma CountedKeeps(s: State)
    requires Inv(s)
    ensures Inv(Counted(s)) && Settles(s, Counted(s)) && Counted(s).joinPending == s.joinPending
  {
    CountingIsExact(Beacons(s.log), s.lqmBeacons, s.lqmReported);
  }

  lemma CountKeeps(s: State, n: Node, frame: bool)
    requires Inv(s) && !s.stopping
    ensures Inv(CountBeacon(s, n, frame)) && Settles(s, CountBeacon(s, n, frame))
    ensures CountBeacon(s, n, frame).joinPending == s.joinPending
  {
    CountedKeeps(s);
    ReportKeeps(Counted(s));
    SettlesTransitive(s, Counted(s), ReportBeacons(Counted(s)));
    var t := CountBeacon(s, n, frame);
    assert t == s || t == Counted(s) || t == ReportBeacons(Counted(s));
  }

  lemma SettlesTransitive(s: State, t: State, u: State)
    requires Settles(s, t) && Settles(t, u)
    ensures Settles(s, u)
  {
  }

  /** Posting the next report of a join that is current. */
  lemma LinkReportedJoin(s: State)
    requires Inv(s) && !s.stopping && s.joinPending && s.assocNotified && !s.firstBeaconNotified
    ensures var t := LinkReported(s); JoinInv(t, Joins(t.log)) && Flags(t)
    ensures Balance(LinkReported(s)) == Balance(s)
  {
    var t := s.(firstBeaconNotified := true, linkIndicated := true);
    PostFrame(t, LinkStatus(true));
    PostFrame(Post(t, LinkStatus(true)), FirstBeacon);
  }

  lemma LinkReportedKeeps(s: State)
    requires Inv(s) && !s.stopping && s.joinPending && s.assocNotified && !s.firstBeaconNotified
    ensures Inv(LinkReported(s)) && Settles(s, LinkReported(s))
    ensures LinkReported(s).firstBeaconNotified && LinkReported(s).portAuthorized == s.portAuthorized
  {
    var t := s.(firstBeaconNotified := true, linkIndicated := true);
    LinkReportedJoin(s);
    PostFrame(t, LinkStatus(true));
    PostQueue(t, LinkStatus(true));
    PostFrame(Post(t, LinkStatus(true)), FirstBeacon);
    PostQueue(Post(t, LinkStatus(true)), FirstBeacon);
  }

  lemma FirstBeaconKeeps(s: State)
    requires Inv(s) && !s.stopping && s.joinPending && s.assocNotified && !s.firstBeaconNotified
    ensures Inv(FirstBeaconSeen(s)) && Settles(s, FirstBeaconSeen(s))
  {
    LinkReportedKeeps(s);
    if s.portAuthorized {
      FinishJoinKeeps(LinkReported(s), 0);
    }
  }

  lemma HearBeaconKeeps(s: State, n: Node, frame: bool, linkScanning: bool)
    requires Inv(s) && !s.stopping
    ensures Inv(HearBeacon(s, n, frame, linkScanning)) && Settles(s, HearBeacon(s, n, frame, linkScanning))
  {
    CountKeeps(s, n, frame);
    var t := CountBeacon(s, n, frame);
    PublishKeeps(t, n);
    var listens := t.scanPending || t.joinPending || linkScanning || (t.portAuthorized && n.mine);
    var u := if listens then Publish(t, n) else t;
    SettlesTransitive(s, t, u);
    if u.joinPending && u.assocNotified && !u.firstBeaconNotified && n.mine && u.bssValid {
      FirstBeaconKeeps(u);
      SettlesTransitive(s, u, FirstBeaconSeen(u));
    }
  }

  // -------------------------------------------------------------------------
  // Signals with call-outs
  // -------------------------------------------------------------------------

  lemma LeftKeeps(s: State)
    requires Inv(s)
    ensures Inv(Left(s)) && Settles(s, Left(s)) && !Left(s).joinPending && !Left(s).joinDeferred
    ensures Joins(Left(s).log).waived == Joins(s.log).waived
  {
    if s.joinPending {
      WithdrawnKeeps(s);
    } else {
      assert Left(s) == s.(bssValid := false);
    }
  }

  lemma WithdrawnKeeps(s: State)
    requires Inv(s) && s.joinPending
    ensures Inv(Left(s)) && Settles(s, Left(s)) && Joins(Left(s).log).waived == Joins(s.log).waived
  {
    var t := s.Log(JoinWithdrawn);
    assert Left(s) == t.(joinPending := false, joinDeferred := false, bssValid := false);
  }

  lemma {:induction false} HearAllKeeps(s: State, signals: seq<Signal>)
    requires Inv(s) && !s.joinDeferred
    ensures Inv(HearAll(s, signals)) && Settles(s, HearAll(s, signals))
    decreases signals, 0
  {
    if signals != [] {
      HearOneKeeps(s, signals[0]);
      HearAllKeeps(HearOne(s, signals[0]), signals[1..]);
      SettlesTransitive(s, HearOne(s, signals[0]), HearAll(s, signals));
    }
  }

  lemma LeaveKeeps(s: State, leaving: seq<Signal>)
    requires Inv(s)
    ensures Inv(LeaveNetwork(s, leaving)) && Settles(s, LeaveNetwork(s, leaving))
    ensures !LeaveNetwork(s, leaving).joinPending && !LeaveNetwork(s, leaving).joinDeferred
    decreases leaving, 1
  {
    LeftKeeps(s);
    HearAllKeeps(Left(s), leaving);
    SettlesTransitive(s, Left(s), LeaveNetwork(s, leaving));
  }

  /** What an attempt leaves alone: it has been neither answered nor accounted for yet. */
  predicate Trying(s: State, t: State) {
    var b, c, x, y := Joins(s.log), Joins(t.log), Scans(s.log), Scans(t.log);
    && c.strays == b.strays && c.waived == b.waived
    && y.answered == x.answered && y.strays == x.strays
    && ScanBalance(t) == ScanBalance(s) && t.stopping == s.stopping && t.filter == s.filter
  }

  /** The radio has been told to join, and the latest join is the one being tried. */
  predicate Underway(s: State, t: State) {
    Joins(t.log).latest == Launched(Joins(s.log).latest).(ended := !t.joinPending) && Balance(t) == Balance(s) - 1
  }

  /** The radio refused after the join was started: it counts if it was completed before. */
  predicate Refused(s: State, t: State) {
    var b, c := Joins(s.log), Joins(t.log);
    && c.latest == Launched(b.latest).(ended := c.latest.ended)
    && Balance(t) == Balance(s) - (if c.latest.ended then 1 else 0)
  }

  /** What an attempt from a state without a pending join leaves. */
  predicate Tried(s: State, t: State, status: IOReturn, deferred: bool) {
    var b, c := Joins(s.log), Joins(t.log);
    && Trying(s, t) && t.joinDeferred == deferred
    && (if deferred then t.joinPending && c.latest == Latest(true, false, false) && Balance(t) == Balance(s) - 1
        else if status == Success then Underway(s, t)
        else !t.joinPending && (Refused(s, t) || (c.latest == b.latest && Balance(t) == Balance(s))))
  }

  lemma StartedKeeps(s: State)
    requires Inv(s) && !s.joinPending && !s.scanPending && !s.stopping
    ensures Inv(Started(s)) && Trying(s, Started(s)) && Underway(s, Started(s)) && !Started(s).joinDeferred
  {
  }

  lemma DeferralKeeps(s: State)
    requires Inv(s) && !s.joinPending && !s.stopping
    ensures Inv(Deferral(s)) && Tried(s, Deferral(s), Success, true)
  {
  }

  /** The state change fails. */
  predicate MoveFails(a: Attempt) {
    !a.scanning && a.moveFails
  }

  lemma MoveKeeps(s: State, t: State, a: Attempt)
    requires Inv(t) && !t.joinDeferred && t.joinPending && Trying(s, t) && Underway(s, t)
    ensures var u := Move(t, a);
      Inv(u) && Tried(s, u, if MoveFails(a) then Error else Success, false)
    decreases a, 0
  {
    if !a.scanning {
      HearAllKeeps(t, a.moving);
      MovedKeeps(s, t, HearAll(t, a.moving), a.moveFails);
    }
  }

  lemma MovedKeeps(s: State, t: State, u: State, fails: bool)
    requires t.joinPending && !t.joinDeferred && Trying(s, t) && Underway(s, t) && Inv(u) && Settles(t, u)
    ensures var v := if fails then u.(joinPending := false) else u;
      Inv(v) && Tried(s, v, if fails then Error else Success, false)
  {
  }

  lemma StartJoinKeeps(s: State, reconfiguring: bool, a: Attempt)
    requires Inv(s) && !s.stopping && !s.joinPending
    ensures Inv(StartJoin(s, reconfiguring, a))
    ensures Tried(s, StartJoin(s, reconfiguring, a), StartStatus(s, reconfiguring, a), Defers(s, reconfiguring, a))
    decreases a, 2
  {
    if Defers(s, reconfiguring, a) {
      DeferralKeeps(s);
    } else if !(!a.supported || !a.running || s.scanPending) {
      AttemptKeeps(s, reconfiguring, a);
    }
  }

  lemma DepartedKeeps(s: State, a: Attempt)
    requires Inv(s) && !s.joinPending
    ensures Inv(Departed(s, a)) && Settles(s, Departed(s, a)) && !Departed(s, a).joinPending
      && !Departed(s, a).joinDeferred
    decreases a, 0
  {
    if Connected(a.link) {
      LeaveKeeps(s, a.leaving);
    }
  }

  lemma AttemptKeeps(s: State, reconfiguring: bool, a: Attempt)
    requires Inv(s) && !s.stopping && a.supported && a.running && !s.joinPending && !s.scanPending
    requires !Defers(s, reconfiguring, a)
    ensures Inv(StartJoin(s, reconfiguring, a))
    ensures Tried(s, StartJoin(s, reconfiguring, a), StartStatus(s, reconfiguring, a), false)
    decreases a, 1
  {
    var t := Departed(s, a);
    DepartedKeeps(s, a);
    if a.setup == Success {
      StartedKeeps(t);
      LeftFrame(s, t, Started(t));
      MoveKeeps(s, Started(t), a);
    }
  }

  /** Leaving the old network first changes nothing for the attempt. */
  lemma LeftFrame(s: State, t: State, u: State)
    requires Settles(s, t) && !s.joinPending && !s.joinDeferred && Trying(t, u) && Underway(t, u)
    ensures Trying(s, u) && Underway(s, u)
  {
  }

  /** Between operations the latest join is pending or over, and every request is answered. */
  predicate Rests(s: State) {
    var b := Joins(s.log);
    && b.latest.answered && b.latest.ended == !s.joinPending && Scans(s.log).answered
    && (s.joinDeferred <==> b.latest.deferred && !b.latest.ended)
  }

  /** The state in which a deferred join is started again. */
  function Released(s: State): State {
    s.(joinDeferred := false, joinPending := false)
  }

  /** An operation moves neither balance, and waives the reports of `waived` joins. */
  predicate Accounts(s: State, t: State, waived: nat) {
    Inv(t) && Tallies(s, t, waived)
  }

  predicate Tallies(s: State, t: State, waived: nat) {
    && Rests(t) && Balance(t) == Balance(s) && ScanBalance(t) == ScanBalance(s)
    && Joins(t.log).waived == Joins(s.log).waived + waived
  }

  lemma ResumeKeeps(s: State, a: Attempt)
    requires Inv(s) && Rests(s) && !s.stopping && s.joinDeferred
    ensures Accounts(s, ResumeJoin(s, a), 0)
  {
    var t := Released(s);
    var u := StartJoin(t, false, a);
    StartJoinKeeps(t, false, a);
    ResumedKeeps(s, u, StartStatus(t, false, a));
  }

  lemma ResumedKeeps(s: State, u: State, status: IOReturn)
    requires Inv(s) && Rests(s) && !s.stopping && s.joinDeferred && Inv(u) && Tried(Released(s), u, status, false)
    ensures Accounts(s, if status == Success then u else FinishJoin(u.(joinPending := true), 1), 0)
  {
    if status != Success {
      assert u.(joinPending := true).(joinPending := false, joinDeferred := false) == u;
      FailurePosted(s, u);
    }
  }

  lemma FailurePosted(s: State, u: State)
    requires Inv(s) && Rests(s) && !s.stopping && s.joinDeferred && Inv(u) && Tried(Released(s), u, Error, false)
    ensures Accounts(s, Post(u, ConnectComplete(1)), 0)
  {
    FailureKeeps(u);
    FailureTallies(s, u);
  }

  lemma FailureKeeps(s: State)
    requires Inv(s) && !s.joinPending
    ensures Inv(Post(s, ConnectComplete(1)))
  {
    PostFrame(s, ConnectComplete(1));
    PostQueue(s, ConnectComplete(1));
  }

  lemma FailureTallies(s: State, u: State)
    requires Rests(s) && s.joinPending && s.joinDeferred && Tried(Released(s), u, Error, false)
    ensures Tallies(s, Post(u, ConnectComplete(1)), 0)
  {
    PostFrame(u, ConnectComplete(1));
  }

  lemma HearOneKeeps(s: State, signal: Signal)
    requires Inv(s) && (signal.Ready? ==> !s.joinDeferred)
    ensures Inv(HearOne(s, signal)) && Settles(s, HearOne(s, signal))
    decreases signal, 1
  {
    if !s.stopping {
      HeardKeeps(s, signal);
    }
  }

  lemma HeardKeeps(s: State, signal: Signal)
    requires Inv(s) && !s.stopping && (signal.Ready? ==> !s.joinDeferred)
    ensures Inv(HearOne(s, signal)) && Settles(s, HearOne(s, signal))
    decreases signal, 0
  {
    match signal
    case PortSignal(up) => HearPortKeeps(s, up);
    case Ready(_) =>
    case Halted(reconfiguring) => HearHaltedKeeps(s, reconfiguring);
    case Beacon(n, frame, linkScanning) => HearBeaconKeeps(s, n, frame, linkScanning);
    case ScanFinished => ScanHeardKeeps(s);
    case AssocDone(status) => HearAssocKeeps(s, status);
    case Deauthenticated => DeauthKeeps(s);
    case JoinTimeout(leaving) => TimeoutKeeps(s, leaving);
    case ScanTimer(nodes) => FinishScanKeeps(s, if s.scanCompleted then Success else Timeout, nodes);
  }

  lemma ScanHeardKeeps(s: State)
    requires Inv(s)
    ensures Inv(HearScanFinished(s)) && Settles(s, HearScanFinished(s))
  {
    if s.scanPending {
      ScanReported(s);
    }
  }

  /** What the driver's report of a scan leaves alone. */
  lemma HeardFrame(s: State)
    ensures var t := s.Log(ScanHeard);
      && Joins(t.log) == Joins(s.log) && Messages(t.log) == Messages(s.log) && Beacons(t.log) == Beacons(s.log)
      && Scans(t.log) == Scans(s.log).(heard := Scans(s.log).heard + 1)
  {
  }

  lemma ScanReported(s: State)
    requires Inv(s) && s.scanPending
    ensures Inv(HearScanFinished(s)) && Settles(s, HearScanFinished(s))
  {
    if s.scanSkip {
      HeardFrame(s.(scanSkip := false));
    } else {
      HeardFrame(s.(scanCompleted := true));
    }
  }

  lemma DeauthKeeps(s: State)
    requires Inv(s) && !s.stopping
    ensures Inv(FinishJoin(Post(s, Deauth), 1)) && Settles(s, FinishJoin(Post(s, Deauth), 1))
  {
    PostKeeps(s, Deauth);
    FinishJoinKeeps(Post(s, Deauth), 1);
  }

  lemma TimeoutKeeps(s: State, leaving: seq<Signal>)
    requires Inv(s) && !s.stopping
    ensures Inv(LeaveNetwork(FinishJoin(s, 1), leaving)) && Settles(s, LeaveNetwork(FinishJoin(s, 1), leaving))
    decreases leaving, 2
  {
    FinishJoinKeeps(s, 1);
    LeaveKeeps(FinishJoin(s, 1), leaving);
  }

  // -------------------------------------------------------------------------
  // Commands
  // -------------------------------------------------------------------------

  /** A scan request that has not been answered: its scan is the latest one. */
  predicate Scanning(s: State, t: State) {
    && Balance(t) == Balance(s) && ScanBalance(t) == ScanBalance(s) - 1
    && Joins(t.log).latest == Joins(s.log).latest && Joins(t.log).waived == Joins(s.log).waived
    && t.joinPending == s.joinPending && t.joinDeferred == s.joinDeferred
    && !Scans(t.log).answered && Scans(t.log).ended == !t.scanPending
  }

  lemma ScanOpenedKeeps(s: State, filter: Filter, env: ScanEnv)
    requires Inv(s) && !s.scanPending && !s.joinPending && !s.stopping
    ensures var t := ScanBegun(s, filter, env); Inv(t) && Scanning(s, t) && t.scanPending
  {
  }

  predicate ScanFails(env: ScanEnv) {
    env.moveFails && !env.link.Scanning? && (env.link.Running? ==> env.canBackground)
  }

  lemma CachedKeeps(s: State)
    requires Inv(s) && !s.scanSkip
    ensures Inv(Cached(s)) && Settles(s, Cached(s)) && Cached(s).scanPending == s.scanPending
    ensures Cached(s).joinPending == s.joinPending && Cached(s).joinDeferred == s.joinDeferred
  {
  }

  lemma ScanningOn(s: State, t: State, u: State)
    requires Scanning(s, t) && Settles(t, u) && !t.joinPending && !t.joinDeferred
    ensures Scanning(s, u)
  {
  }

  /** The scan goes on, or was refused after it was opened. */
  lemma ScanOpenedWithKeeps(s: State, t: State, env: ScanEnv)
    requires Inv(t) && !t.stopping && !t.joinPending && !t.joinDeferred && (env.link.Running? ==> !t.scanSkip)
    requires Scanning(s, t) && t.scanPending
    ensures var u := ScanOpenedWith(t, env);
      Inv(u) && if ScanFails(env) then ScanRefused(s, u) else Scanning(s, u)
  {
    if env.link.Running? && !env.canBackground {
      CachedKeeps(t);
      FinishScanKeeps(Cached(t), Success, env.nodes);
      ScanningOn(s, t, Cached(t));
      ScanningOn(s, Cached(t), FinishScan(Cached(t), Success, env.nodes));
    } else if !env.link.Scanning? {
      var u := HearAll(t, env.moving);
      HearAllKeeps(t, env.moving);
      ScanningOn(s, t, u);
      ScanCancelled(s, u);
    }
  }

  predicate ScanRefused(s: State, t: State) {
    && Balance(t) == Balance(s)
    && ScanBalance(t) == ScanBalance(s) - (if Scans(t.log).ended then 1 else 0)
    && Joins(t.log).latest == Joins(s.log).latest && Joins(t.log).waived == Joins(s.log).waived
    && t.joinPending == s.joinPending && t.joinDeferred == s.joinDeferred
    && !Scans(t.log).answered && !t.scanPending
  }

  lemma ScanCancelled(s: State, t: State)
    requires Inv(t) && Scanning(s, t)
    ensures var u := t.(scanPending := false); Inv(u) && ScanRefused(s, u)
  {
  }

  lemma ScanStatusMeans(s: State, decoded: bool, filter: Filter, env: ScanEnv)
    ensures ScanStatus(s, decoded, filter, env) == Success <==>
            ScanOpens(s, decoded, filter, env) && !ScanFails(env)
  {
  }

  lemma ScanKeeps(s: State, decoded: bool, filter: Filter, env: ScanEnv)
    requires Inv(s) && Rests(s) && !s.stopping
    ensures Accounts(s, BeginScan(s, decoded, filter, env).Log(ScanAnswered(ScanStatus(s, decoded, filter, env))), 0)
  {
    var status := ScanStatus(s, decoded, filter, env);
    ScanStatusMeans(s, decoded, filter, env);
    if ScanOpens(s, decoded, filter, env) {
      var t := ScanBegun(s, filter, env);
      ScanOpenedKeeps(s, filter, env);
      ScanOpenedWithKeeps(s, t, env);
      ScanAnsweredKeeps(s, ScanOpenedWith(t, env), status);
    } else {
      ScanRejectedKeeps(s, status);
    }
  }

  /** What the answer to a scan request leaves alone. */
  lemma ScanAnswerFrame(s: State, status: IOReturn)
    ensures var t := s.Log(ScanAnswered(status));
      && Joins(t.log) == Joins(s.log) && Messages(t.log) == Messages(s.log) && Beacons(t.log) == Beacons(s.log)
      && Scans(t.log) == NoteScanAnswer(Scans(s.log), status == Success)
  {
  }

  lemma ScanRejectedKeeps(s: State, status: IOReturn)
    requires Inv(s) && Rests(s) && status != Success
    ensures Accounts(s, s.Log(ScanAnswered(status)), 0)
  {
    ScanAnswerFrame(s, status);
  }

  lemma ScanAnsweredKeeps(s: State, t: State, status: IOReturn)
    requires Inv(s) && Rests(s) && Inv(t) && (if status == Success then Scanning(s, t) else ScanRefused(s, t))
    ensures Accounts(s, t.Log(ScanAnswered(status)), 0)
  {
    ScanAnswerKeeps(t, status);
    ScanTallies(s, t, status);
  }

  lemma ScanAnswerKeeps(s: State, status: IOReturn)
    requires Inv(s)
    ensures Inv(s.Log(ScanAnswered(status)))
  {
    ScanAnswerFrame(s, status);
  }

  lemma ScanTallies(s: State, t: State, status: IOReturn)
    requires Rests(s) && (if status == Success then Scanning(s, t) else ScanRefused(s, t))
    ensures Tallies(s, t.Log(ScanAnswered(status)), 0)
  {
    ScanAnswerFrame(t, status);
  }

  lemma AssociateKeeps(s: State, reconfiguring: bool, a: Attempt)
    requires Inv(s) && Rests(s) && !s.stopping
    ensures Accounts(s, StartJoin(s, reconfiguring, a).Log(JoinAnswered(StartStatus(s, reconfiguring, a))), 0)
  {
    if s.joinPending {
      RefusedKeepsRest(s, StartStatus(s, reconfiguring, a));
    } else {
      StartJoinKeeps(s, reconfiguring, a);
      JoinAnsweredKeeps(s, StartJoin(s, reconfiguring, a), StartStatus(s, reconfiguring, a),
        Defers(s, reconfiguring, a));
    }
  }

  lemma RefusedKeepsRest(s: State, status: IOReturn)
    requires Inv(s) && Rests(s) && status != Success
    ensures Accounts(s, s.Log(JoinAnswered(status)), 0)
  {
    AnswerFrame(s, status);
  }

  lemma JoinAnsweredKeeps(s: State, t: State, status: IOReturn, deferred: bool)
    requires Inv(s) && Rests(s) && !s.joinPending && Inv(t) && Tried(s, t, status, deferred)
    requires deferred ==> status == Success
    ensures Accounts(s, t.Log(JoinAnswered(status)), 0)
  {
    if status == Success {
      AcceptedKeeps(s, t, deferred);
    } else {
      ErrorKeeps(s, t, status);
    }
  }

  /** What the answer to a join request leaves alone. */
  lemma AnswerFrame(s: State, status: IOReturn)
    ensures var t := s.Log(JoinAnswered(status));
      && Scans(t.log) == Scans(s.log) && Messages(t.log) == Messages(s.log) && Beacons(t.log) == Beacons(s.log)
      && Joins(t.log) == NoteAnswer(Joins(s.log), status == Success)
  {
  }

  lemma AcceptedKeeps(s: State, t: State, deferred: bool)
    requires Inv(s) && Rests(s) && !s.joinPending && Inv(t) && Tried(s, t, Success, deferred)
    ensures Accounts(s, t.Log(JoinAnswered(Success)), 0)
  {
    AnswerFrame(t, Success);
  }

  lemma ErrorKeeps(s: State, t: State, status: IOReturn)
    requires Inv(s) && Rests(s) && !s.joinPending && Inv(t) && Tried(s, t, status, false) && status != Success
    ensures Accounts(s, t.Log(JoinAnswered(status)), 0)
  {
    ErrorAnswered(t, status);
    ErrorTallies(s, t, status);
  }

  lemma ErrorAnswered(s: State, status: IOReturn)
    requires Inv(s) && !s.joinPending
    ensures Inv(s.Log(JoinAnswered(status)))
  {
    AnswerFrame(s, status);
  }

  lemma ErrorTallies(s: State, t: State, status: IOReturn)
    requires Rests(s) && !s.joinPending && Tried(s, t, status, false) && status != Success
    ensures Tallies(s, t.Log(JoinAnswered(status)), 0)
  {
    AnswerFrame(t, status);
  }

  /** A join that waits for the radio is reported as successful: the port is authorized while an
      earlier first beacon is noted, or the first beacon comes with the port authorized. */
  predicate Waives(s: State, signal: Signal) {
    match signal
    case PortSignal(up) => up && s.firstBeaconNotified
    case Beacon(n, _, _) =>
      && n.mine && s.assocNotified && !s.firstBeaconNotified && s.portAuthorized
      && (if n.publishable then n.fits else s.bssValid)
    case _ => false
  }

  function Waived(s: State, op: Op): nat {
    if op.Hear? && !s.stopping && s.joinDeferred && Waives(s, op.signal) then 1 else 0
  }

  lemma SettledRests(s: State, t: State)
    requires Inv(s) && Rests(s) && Inv(t) && Settles(s, t)
    ensures Rests(t)
  {
  }

  lemma SettledAccounts(s: State, t: State)
    requires Inv(s) && Rests(s) && Inv(t) && Settles(s, t) && !s.joinDeferred
    ensures Accounts(s, t, 0)
  {
    SettledRests(s, t);
  }

  /** What leaves no join pending waives none. */
  lemma PerformKeeps(s: State, c: Command)
    requires Inv(s) && Rests(s) && !s.stopping
    ensures Accounts(s, Perform(s, c), 0)
  {
    match c
    case Scan(decoded, filter, env) => ScanKeeps(s, decoded, filter, env);
    case AbortScan =>
      FinishScanKeeps(s, Aborted, []);
      SettledRests(s, FinishScan(s, Aborted, []));
      ScanLeavesJoins(s, Aborted, []);
    case Associate(reconfiguring, a) => AssociateKeeps(s, reconfiguring, a);
    case AbortJoin(leaving) => LeaveAccounts(s, leaving);
    case Leave(leaving) => LeaveAccounts(s, leaving);
  }

  lemma {:induction false} ReplayLeavesJoins(s: State, nodes: seq<Node>)
    ensures Joins(Replay(s, nodes).log) == Joins(s.log)
    decreases |nodes|
  {
    if nodes != [] {
      ReplayLeavesJoins(Publish(s, nodes[0]).Log(Replayed(nodes[0])), nodes[1..]);
    }
  }

  lemma ScanLeavesJoins(s: State, status: IOReturn, nodes: seq<Node>)
    ensures Joins(FinishScan(s, status, nodes).log) == Joins(s.log)
  {
    ReplayLeavesJoins(s.(scanPending := false, scanCompleted := false), Replays(s.filter, nodes));
    ReplayLeavesJoins(s.(scanPending := false, scanCompleted := false), []);
  }

  lemma LeaveAccounts(s: State, leaving: seq<Signal>)
    requires Inv(s) && Rests(s)
    ensures Accounts(s, LeaveNetwork(s, leaving), 0)
  {
    LeaveKeeps(s, leaving);
    SettledRests(s, LeaveNetwork(s, leaving));
    LeftKeeps(s);
    HearAllKeeps(Left(s), leaving);
  }

  lemma SignalKeeps(s: State, signal: Signal)
    requires Inv(s) && Rests(s)
    ensures Accounts(s, HearOne(s, signal), Waived(s, Hear(signal)))
  {
    if s.stopping {
    } else if !s.joinDeferred {
      HearOneKeeps(s, signal);
      SettledAccounts(s, HearOne(s, signal));
    } else if signal.Ready? {
      ResumeKeeps(s, signal.attempt);
    } else {
      HearOneKeeps(s, signal);
      SettledRests(s, HearOne(s, signal));
      WaivedExactly(s, signal);
    }
  }

  // -------------------------------------------------------------------------
  // Signals while a join waits for the radio
  // -------------------------------------------------------------------------

  lemma WaivedExactly(s: State, signal: Signal)
    requires Inv(s) && !s.stopping && s.joinDeferred && !signal.Ready?
    ensures Joins(HearOne(s, signal).log).waived == Joins(s.log).waived + Waived(s, Hear(signal))
  {
    match signal
    case PortSignal(up) => PortWaives(s, up);
    case Halted(reconfiguring) => HaltedWaives(s, reconfiguring);
    case Beacon(n, frame, linkScanning) => BeaconWaives(s, n, frame, linkScanning);
    case ScanFinished => ScanFinishedWaives(s);
    case AssocDone(status) => AssocWaives(s, status);
    case Deauthenticated => DeauthWaives(s);
    case JoinTimeout(leaving) => TimeoutWaives(s, leaving);
    case ScanTimer(nodes) => ScanLeavesJoins(s, if s.scanCompleted then Success else Timeout, nodes);
  }

  lemma ScanFinishedWaives(s: State)
    ensures Joins(HearScanFinished(s).log) == Joins(s.log)
  {
    if s.scanSkip {
      HeardFrame(s.(scanSkip := false));
    } else {
      HeardFrame(s.(scanCompleted := true));
    }
  }

  lemma DeauthWaives(s: State)
    ensures Joins(FinishJoin(Post(s, Deauth), 1).log).waived == Joins(s.log).waived
  {
    PostFrame(s, Deauth);
    FailureWaives(Post(s, Deauth), 1);
  }

  lemma FailureWaives(s: State, status: nat)
    requires status != 0
    ensures Joins(FinishJoin(s, status).log).waived == Joins(s.log).waived
  {
    PostFrame(s.(joinPending := false, joinDeferred := false), ConnectComplete(status));
  }

  lemma PortWaives(s: State, up: bool)
    requires Inv(s) && s.joinDeferred
    ensures Joins(HearPort(s, up).log).waived == Joins(s.log).waived + (if up && s.firstBeaconNotified then 1 else 0)
  {
    var t := s.(portAuthorized := up).Log(PortChanged(up));
    PostFrame(t.(joinPending := false, joinDeferred := false), ConnectComplete(0));
    PostFrame(t.(linkIndicated := false, bssValid := false), LinkStatus(false));
  }

  lemma HaltedWaives(s: State, reconfiguring: bool)
    ensures Joins(HearHalted(s, reconfiguring).log).waived == Joins(s.log).waived
  {
    var status := if reconfiguring then Aborted else Offline;
    ScanLeavesJoins(s, status, []);
    FailureWaives(FinishScan(s, status, []), 1);
  }

  lemma AssocWaives(s: State, status: nat)
    ensures Joins(HearAssoc(s, status).log).waived == Joins(s.log).waived
  {
    PostFrame(s.(assocNotified := status == 0), AssocComplete(status));
    if status != 0 {
      FailureWaives(AssocReported(s, status), status);
    }
  }

  lemma TimeoutWaives(s: State, leaving: seq<Signal>)
    requires Inv(s) && !s.stopping
    ensures Joins(LeaveNetwork(FinishJoin(s, 1), leaving).log).waived == Joins(s.log).waived
  {
    FailureWaives(s, 1);
    FinishJoinKeeps(s, 1);
    LeftKeeps(FinishJoin(s, 1));
    HearAllKeeps(Left(FinishJoin(s, 1)), leaving);
  }

  /** Counting and reporting beacons leaves joins and their flags alone. */
  predicate JoinsAlone(s: State, t: State) {
    && t == s.(lqmBeacons := t.lqmBeacons, lqmReported := t.lqmReported, queue := t.queue, log := t.log)
    && Joins(t.log) == Joins(s.log)
  }

  lemma UpdateLeavesJoins(s: State)
    ensures JoinsAlone(s, Update(s))
  {
    PostFrame(s, LqmUpdate(Unreported(s)));
  }

  lemma CountLeavesJoins(s: State, n: Node, frame: bool)
    ensures JoinsAlone(s, CountBeacon(s, n, frame))
  {
    var t := Counted(s);
    assert JoinsAlone(s, t);
    UpdateLeavesJoins(t);
    assert CountBeacon(s, n, frame) in {s, t, Update(t)};
  }

  lemma BeaconWaives(s: State, n: Node, frame: bool, linkScanning: bool)
    requires Inv(s) && s.joinDeferred
    ensures Joins(HearBeacon(s, n, frame, linkScanning).log).waived ==
            Joins(s.log).waived + (if Waives(s, Beacon(n, frame, linkScanning)) then 1 else 0)
  {
    var t := CountBeacon(s, n, frame);
    CountLeavesJoins(s, n, frame);
    PublishedWaives(t, Publish(t, n), n);
    BeaconIs(s, t, n, frame, linkScanning);
    assert Waives(s, Beacon(n, frame, linkScanning)) == Waives(t, Beacon(n, false, false));
  }

  lemma BeaconIs(s: State, t: State, n: Node, frame: bool, linkScanning: bool)
    requires t == CountBeacon(s, n, frame) && t.joinPending
    ensures var u := Publish(t, n);
      HearBeacon(s, n, frame, linkScanning) == if Noticed(u, n) then FirstBeaconSeen(u) else u
  {
  }

  /** The beacon is the first one of the join. */
  predicate Noticed(s: State, n: Node) {
    s.joinPending && s.assocNotified && !s.firstBeaconNotified && n.mine && s.bssValid
  }

  lemma PublishedWaives(t: State, u: State, n: Node)
    requires u == Publish(t, n) && t.joinPending && Joins(t.log).progress == Waiting
    ensures Joins((if Noticed(u, n) then FirstBeaconSeen(u) else u).log).waived ==
            Joins(t.log).waived + (if Waives(t, Beacon(n, false, false)) then 1 else 0)
  {
    if Noticed(u, n) {
      FirstBeaconWaives(u);
    }
  }

  lemma FirstBeaconWaives(s: State)
    requires s.joinPending && Joins(s.log).progress == Waiting
    ensures Joins(FirstBeaconSeen(s).log).waived == Joins(s.log).waived + (if s.portAuthorized then 1 else 0)
  {
    var t := s.(firstBeaconNotified := true, linkIndicated := true);
    PostFrame(t, LinkStatus(true));
    PostFrame(Post(t, LinkStatus(true)), FirstBeacon);
    PostFrame(LinkReported(s).(joinPending := false, joinDeferred := false), ConnectComplete(0));
  }

  // -------------------------------------------------------------------------
  // Deliveries, stopping and runs
  // -------------------------------------------------------------------------

  lemma DeliverKeeps(s: State)
    requires Inv(s) && Rests(s)
    ensures Accounts(s, DeliverOne(s), 0)
  {
    if !s.stopping && s.queue != [] {
      var b := Messages(s.log);
      assert b.queued[|b.delivered|] == s.queue[0];
      assert (b.delivered + [s.queue[0]]) + s.queue[1..] == b.delivered + s.queue;
    }
  }

  lemma DropScanKeeps(s: State)
    requires Inv(s) && Rests(s)
    ensures Accounts(s, DropScan(s), 0) && !DropScan(s).scanPending
  {
  }

  lemma DropJoinKeeps(s: State)
    requires Inv(s) && Rests(s)
    ensures Accounts(s, DropJoin(s), 0) && !DropJoin(s).joinPending && DropJoin(s).scanPending == s.scanPending
  {
  }

  lemma SilencedKeeps(s: State)
    requires Inv(s) && Rests(s) && !s.joinPending && !s.scanPending
    ensures Accounts(s, Silenced(s), 0)
  {
  }

  lemma HaltKeeps(s: State)
    requires Inv(s) && Rests(s)
    ensures Accounts(s, Halt(s), 0)
  {
    DropScanKeeps(s);
    DropJoinKeeps(DropScan(s));
    SilencedKeeps(DropJoin(DropScan(s)));
  }

  lemma StepKeeps(s: State, op: Op)
    requires Inv(s) && Rests(s)
    ensures Accounts(s, Step(s, op), Waived(s, op))
  {
    match op
    case Do(c) =>
      if !s.stopping {
        PerformKeeps(s, c);
      }
    case Hear(signal) => SignalKeeps(s, signal);
    case Deliver => DeliverKeeps(s);
    case Stop => HaltKeeps(s);
  }

  function WaivedIn(s: State, ops: seq<Op>): nat
    decreases |ops|
  {
    if ops == [] then 0 else Waived(s, ops[0]) + WaivedIn(Step(s, ops[0]), ops[1..])
  }

  lemma {:induction false} RunKeeps(s: State, ops: seq<Op>)
    requires Inv(s) && Rests(s)
    ensures Accounts(s, Run(s, ops), WaivedIn(s, ops))
    decreases |ops|
  {
    if ops != [] {
      StepKeeps(s, ops[0]);
      RunKeeps(Step(s, ops[0]), ops[1..]);
    }
  }
}
