/** What holds of the station front end after every run of commands, signals and deliveries. */
module StationTheorems {
  import opened Common
  import opened Station
  import opened StationProof

  lemma Reachable(ops: seq<Op>)
    ensures Accounts(START, Run(START, ops), WaivedIn(START, ops))
  {
    RunKeeps(START, ops);
  }

  // -------------------------------------------------------------------------
  // Joins
  // -------------------------------------------------------------------------

  /** Every accepted join is completed, withdrawn or pending, and none is completed twice,
      exactly when no request is answered with an error after its join was completed and no
      join is completed a second time. */
  lemma JoinsAreConserved(ops: seq<Op>)
    ensures var s := Run(START, ops);
      var b, pending := Joins(s.log), if s.joinPending then 1 else 0;
      && b.accepted + b.strays == b.completed + b.withdrawn + pending
      && (b.accepted == b.completed + b.withdrawn + pending <==> b.strays == 0)
      && (s.stopping ==> pending == 0)
  {
    Reachable(ops);
  }

  const ATTEMPT := Attempt(true, true, true, Initial, [], Success, true, [], false)

  /** A deauthentication inside the state change completes the join before it fails. */
  const STRAY := [Do(Associate(false, ATTEMPT.(scanning := false, moving := [Deauthenticated], moveFails := true)))]

  lemma FailedStartMayComplete()
    ensures var s := Run(START, STRAY);
      && Joins(s.log).accepted == 0 && Joins(s.log).completed == 1 && Joins(s.log).strays == 1
      && |s.log| > 0 && s.log[|s.log| - 1] == JoinAnswered(Error)
  {
    assert STRAY[1..] == [];
    assert Run(START, STRAY) == Run(Step(START, STRAY[0]), []);
    FailedStart(STRAY[0].command.attempt);
    JoinsAreConserved(STRAY);
  }

  lemma FailedStart(a: Attempt)
    requires a == ATTEMPT.(scanning := false, moving := [Deauthenticated], moveFails := true)
    ensures var s := Perform(START, Associate(false, a));
      && Joins(s.log).accepted == 0 && Joins(s.log).completed == 1 && Joins(s.log).withdrawn == 0 && !s.joinPending
      && |s.log| > 0 && s.log[|s.log| - 1] == JoinAnswered(Error)
  {
    var t := Started(START);
    DeauthenticationCompletes(t);
    FailedStartIs(START, t, a);
    AnswerFrame(HearOne(t, Deauthenticated).(joinPending := false), Error);
  }

  lemma FailedStartIs(s: State, t: State, a: Attempt)
    requires !s.scanPending && !s.joinPending && !s.stopping && t == Started(s)
    requires a == ATTEMPT.(scanning := false, moving := [Deauthenticated], moveFails := true)
    ensures Perform(s, Associate(false, a)) ==
            HearOne(t, Deauthenticated).(joinPending := false).Log(JoinAnswered(Error))
  {
    assert a.moving[1..] == [];
    assert HearAll(t, a.moving) == HearAll(HearOne(t, Deauthenticated), []);
    assert Departed(s, a) == s;
    assert StartJoin(s, false, a) == Move(t, a) == HearOne(t, Deauthenticated).(joinPending := false);
    assert StartStatus(s, false, a) == Error;
  }

  lemma DeauthenticationCompletes(s: State)
    requires s.joinPending && !s.stopping
    ensures var b := Joins(HearOne(s, Deauthenticated).log);
      && b.accepted == Joins(s.log).accepted && b.completed == Joins(s.log).completed + 1
      && b.withdrawn == Joins(s.log).withdrawn
  {
    PostFrame(s, Deauth);
    PostFrame(Post(s, Deauth).(joinPending := false, joinDeferred := false), ConnectComplete(1));
  }

  /** A scan and a join are pending together only while the join waits for the radio. */
  lemma PendingWorkIsExclusive(ops: seq<Op>)
    ensures var s := Run(START, ops);
      && (s.joinDeferred ==> s.joinPending)
      && (s.scanPending && s.joinPending ==> s.joinDeferred)
      && (s.firstBeaconNotified ==> s.assocNotified)
      && (s.stopping ==> !s.scanPending && !s.joinPending && s.queue == [])
  {
    Reachable(ops);
  }

  // -------------------------------------------------------------------------
  // When a join may be reported as successful
  // -------------------------------------------------------------------------

  predicate Begins(e: Event) {
    e.JoinStarted? || e.JoinDeferred?
  }

  predicate Reports(e: Event, m: Message) {
    e.Posted? && e.message == m
  }

  /** The join that is current at `i` was started at `a`, and since then its association, its
      link and its first beacon were reported, in this order. */
  predicate Trace(log: seq<Event>, i: nat, a: nat, b: nat, c: nat, d: nat) {
    && a < b < c < d < i <= |log|
    && log[a] == JoinStarted && Reports(log[b], AssocComplete(0)) && Reports(log[c], LinkStatus(true))
    && Reports(log[d], FirstBeacon) && Current(log, i, a)
  }

  predicate Current(log: seq<Event>, i: nat, a: nat) {
    a < i <= |log| && Begins(log[a]) && forall k :: a < k < i ==> !Begins(log[k])
  }

  ghost predicate Earned(log: seq<Event>, i: nat) {
    exists a: nat, b: nat, c: nat, d: nat :: Trace(log, i, a, b, c, d)
  }

  /** The join that is current at `i` waits for the radio. */
  predicate Waits(log: seq<Event>, i: nat) {
    i <= |log| && exists a :: 0 <= a < i && log[a] == JoinDeferred && Current(log, i, a)
  }

  predicate Authorizes(log: seq<Event>, i: nat, p: nat) {
    && p < i <= |log| && log[p] == PortChanged(true)
    && forall k :: p < k < i ==> !log[k].PortChanged? && log[k] != JoinStarted
  }

  predicate Authorized(log: seq<Event>, i: nat) {
    i <= |log| && exists p :: 0 <= p < i && Authorizes(log, i, p)
  }

  lemma {:induction false} PortIsAuthorized(log: seq<Event>)
    requires Joins(log).port
    ensures Authorized(log, |log|)
  {
    var last := |log| - 1;
    if log[last] == PortChanged(true) {
      assert Authorizes(log, |log|, last);
    } else {
      PortIsAuthorized(log[..last]);
      var p :| 0 <= p < last && Authorizes(log[..last], last, p);
      assert Authorizes(log, |log|, p);
    }
  }

  lemma {:induction false} WaitingWaits(log: seq<Event>)
    requires Joins(log).progress == Waiting
    ensures Waits(log, |log|)
  {
    var last := |log| - 1;
    if log[last] == JoinDeferred {
      assert Current(log, |log|, last);
    } else {
      WaitingWaits(log[..last]);
      var a :| 0 <= a < last && log[..last][a] == JoinDeferred && Current(log[..last], last, a);
      assert Current(log, |log|, a);
    }
  }

  /** The events behind the progress of the current join. */
  predicate Stages(log: seq<Event>, stage: nat, a: nat, b: nat, c: nat, d: nat) {
    && Current(log, |log|, a) && log[a] == JoinStarted
    && (stage >= 1 ==> a < b < |log| && Reports(log[b], AssocComplete(0)))
    && (stage >= 2 ==> b < c < |log| && Reports(log[c], LinkStatus(true)))
    && (stage >= 3 ==> c < d < |log| && Reports(log[d], FirstBeacon))
  }

  lemma {:induction false} ProgressIsReal(log: seq<Event>) returns (a: nat, b: nat, c: nat, d: nat)
    requires Joins(log).progress.Reported?
    ensures Joins(log).progress.stage <= 3 && Stages(log, Joins(log).progress.stage, a, b, c, d)
  {
    var last := |log| - 1;
    if log[last] == JoinStarted {
      a, b, c, d := last, 0, 0, 0;
    } else {
      a, b, c, d := ProgressIsReal(log[..last]);
      var n := Joins(log[..last]).progress.stage;
      if Joins(log).progress.stage != n {
        b, c, d := if n == 0 then last else b, if n == 1 then last else c, if n == 2 then last else d;
      }
    }
  }

  lemma {:induction false} LawfulBefore(log: seq<Event>, i: nat)
    requires Joins(log).lawful && i <= |log|
    ensures Joins(log[..i]).lawful
  {
    if i == |log| {
      assert log[..i] == log;
    } else {
      LawfulBefore(log[..|log| - 1], i);
      assert log[..|log| - 1][..i] == log[..i];
    }
  }

  lemma PrefixTrace(log: seq<Event>, i: nat)
    requires i <= |log|
    ensures Authorized(log[..i], i) ==> Authorized(log, i)
    ensures Waits(log[..i], i) ==> Waits(log, i)
    ensures Earned(log[..i], i) ==> Earned(log, i)
  {
    if Authorized(log[..i], i) {
      var p :| 0 <= p < i && Authorizes(log[..i], i, p);
      assert Authorizes(log, i, p);
    }
    if Waits(log[..i], i) {
      var a :| 0 <= a < i && log[..i][a] == JoinDeferred && Current(log[..i], i, a);
      assert Current(log, i, a);
    }
    if Earned(log[..i], i) {
      var a: nat, b: nat, c: nat, d: nat :| Trace(log[..i], i, a, b, c, d);
      assert Trace(log, i, a, b, c, d);
    }
  }

  lemma CurrentIsUnique(log: seq<Event>, i: nat, a: nat, b: nat)
    requires Current(log, i, a) && Current(log, i, b)
    ensures a == b
  {
    assert Begins(log[a]) && Begins(log[b]);
  }

  lemma WaitingIsNotEarned(log: seq<Event>, i: nat)
    requires Waits(log, i)
    ensures !Earned(log, i)
  {
    var w: nat :| w < i && log[w] == JoinDeferred && Current(log, i, w);
    forall a: nat | Current(log, i, a)
      ensures a == w
    {
      CurrentIsUnique(log, i, a, w);
    }
  }

  lemma SuccessHadProgress(ops: seq<Op>, i: nat)
    requires var log := Run(START, ops).log; i < |log| && Reports(log[i], ConnectComplete(0))
    ensures var b := Joins(Run(START, ops).log[..i]); b.port && (b.progress == Reported(3) || b.progress == Waiting)
  {
    var log := Run(START, ops).log;
    Reachable(ops);
    LawfulBefore(log, i + 1);
    assert log[..i + 1][..i] == log[..i];
  }

  /** A join is reported as successful only with the port authorized; and its association,
      link and first beacon were reported before exactly if it no longer waited for the radio. */
  lemma SuccessIsEarned(ops: seq<Op>, i: nat)
    requires var log := Run(START, ops).log; i < |log| && Reports(log[i], ConnectComplete(0))
    ensures var log := Run(START, ops).log; Authorized(log, i) && (Earned(log, i) <==> !Waits(log, i))
  {
    var log := Run(START, ops).log;
    SuccessHadProgress(ops, i);
    PortIsAuthorized(log[..i]);
    PrefixTrace(log, i);
    if Joins(log[..i]).progress == Waiting {
      WaitingWaits(log[..i]);
      WaitingIsNotEarned(log, i);
    } else {
      var a, b, c, d := ProgressIsReal(log[..i]);
      assert Trace(log[..i], i, a, b, c, d);
      if Waits(log, i) {
        WaitingIsNotEarned(log, i);
      }
    }
  }

  /** In every run, a join that waits for the radio is reported as successful exactly by a port
      signal while an earlier first beacon is noted, or by the first beacon of the network
      after its association was reported, with the port authorized and a valid snapshot; no
      other signal, command or delivery does it. */
  lemma WaitingJoinsSucceedExactly(ops: seq<Op>, op: Op)
    ensures var s := Run(START, ops);
      Joins(Step(s, op).log).waived == Joins(s.log).waived + Waived(s, op)
    ensures Joins(Run(START, ops).log).waived == WaivedIn(START, ops)
  {
    Reachable(ops);
    StepKeeps(Run(START, ops), op);
  }

  const OURS := Node(true, 6, true, [], true, true, true)

  /** No earlier join is needed: the first join of all waits for the radio, and the driver
      reports an association and the port, then a beacon. */
  const EARLY := [Do(Associate(true, ATTEMPT)), Hear(AssocDone(0)), Hear(PortSignal(true))]

  lemma FirstJoinDefers(s: State)
    requires s == Step(START, EARLY[0])
    ensures s.joinDeferred && s.joinPending && !s.assocNotified && !s.firstBeaconNotified && !s.stopping
      && !s.linkIndicated
  {
    assert s == Deferral(START).Log(JoinAnswered(Success));
  }

  lemma EarlyReports(s: State)
    requires s.joinDeferred && s.joinPending && !s.assocNotified && !s.firstBeaconNotified && !s.stopping
    ensures var t := Step(Step(s, EARLY[1]), EARLY[2]);
      t.joinDeferred && t.assocNotified && !t.firstBeaconNotified && t.portAuthorized && !t.stopping
  {
    assert Step(s, EARLY[1]) == AssocReported(s, 0);
  }

  lemma RunOfThree(s: State, ops: seq<Op>)
    requires |ops| == 3
    ensures Run(s, ops) == Step(Step(Step(s, ops[0]), ops[1]), ops[2])
  {
    assert ops[..3] == ops;
    RunPrefix(s, s, ops, 0);
    RunPrefix(s, Run(s, ops[..1]), ops, 1);
    RunPrefix(s, Run(s, ops[..2]), ops, 2);
  }

  lemma EarlyRun(ops: seq<Op>, s: State, op: Op)
    requires s == Run(START, ops) && Waived(s, op) == 1
    ensures Joins(Run(START, ops + [op]).log).waived >= 1
  {
    WaitingJoinsSucceedExactly(ops, op);
    RunThen(START, s, ops, op);
  }

  lemma WaitingJoinMaySucceedEarly()
    ensures Joins(Run(START, EARLY + [Hear(Beacon(OURS, false, false))]).log).waived >= 1
  {
    var s := Step(START, EARLY[0]);
    FirstJoinDefers(s);
    EarlyReports(s);
    RunOfThree(START, EARLY);
    EarlyRun(EARLY, Run(START, EARLY), Hear(Beacon(OURS, false, false)));
  }

  /** A join runs to its end, a second one is accepted while the radio restarts, and the port
      is authorized once more. */
  const STALE := [Do(Associate(false, ATTEMPT)), Hear(AssocDone(0)), Hear(Beacon(OURS, false, false)),
                  Hear(PortSignal(true)), Do(Associate(true, ATTEMPT))]

  lemma {:induction false} RunConcat(s: State, first: seq<Op>, rest: seq<Op>)
    ensures Run(s, first + rest) == Run(Run(s, first), rest)
    decreases |first|
  {
    if first == [] {
      assert first + rest == rest;
    } else {
      RunConcat(Step(s, first[0]), first[1..], rest);
      assert (first + rest)[1..] == first[1..] + rest;
    }
  }

  lemma RunOne(s: State, op: Op)
    ensures Run(s, [op]) == Step(s, op)
  {
    assert [op][1..] == [];
    assert Run(s, [op]) == Run(Step(s, op), []);
  }

  lemma RunThen(s: State, t: State, ops: seq<Op>, op: Op)
    requires Run(s, ops) == t
    ensures Run(s, ops + [op]) == Step(t, op)
  {
    RunConcat(s, ops, [op]);
    RunOne(t, op);
  }

  lemma FirstJoinAssociates(s: State)
    requires s == Step(Step(START, STALE[0]), STALE[1])
    ensures s.joinPending && s.assocNotified && !s.firstBeaconNotified && !s.portAuthorized && !s.stopping
      && !s.scanPending
  {
    assert Step(START, STALE[0]) == Started(START).Log(JoinAnswered(Success));
  }

  lemma FirstJoinSucceeds(s: State, t: State)
    requires s.joinPending && s.assocNotified && !s.firstBeaconNotified && !s.portAuthorized && !s.stopping
      && !s.scanPending
    requires t == Step(Step(s, STALE[2]), STALE[3])
    ensures !t.joinPending && t.firstBeaconNotified && !t.stopping && !t.scanPending
  {
    var u := Step(s, STALE[2]);
    assert u == LinkReported(s.(bssValid := true));
    assert u.joinPending && u.firstBeaconNotified && !u.stopping && !u.scanPending;
  }

  lemma RunPrefix(s: State, t: State, ops: seq<Op>, k: nat)
    requires k < |ops| && Run(s, ops[..k]) == t
    ensures Run(s, ops[..k + 1]) == Step(t, ops[k])
  {
    RunThen(s, t, ops[..k], ops[k]);
    assert ops[..k + 1] == ops[..k] + [ops[k]];
  }

  lemma RunOfFive(s: State, ops: seq<Op>)
    requires |ops| == 5
    ensures Run(s, ops) == Step(Step(Step(Step(Step(s, ops[0]), ops[1]), ops[2]), ops[3]), ops[4])
  {
    assert ops[..5] == ops;
    RunPrefix(s, s, ops, 0);
    RunPrefix(s, Run(s, ops[..1]), ops, 1);
    RunPrefix(s, Run(s, ops[..2]), ops, 2);
    RunPrefix(s, Run(s, ops[..3]), ops, 3);
    RunPrefix(s, Run(s, ops[..4]), ops, 4);
  }

  lemma SecondJoinWaits(s: State)
    requires !s.joinPending && s.firstBeaconNotified && !s.stopping && !s.scanPending
    ensures var t := Step(s, STALE[4]); t.joinDeferred && t.firstBeaconNotified && !t.stopping
  {
    assert Step(s, STALE[4]) == Deferral(s).Log(JoinAnswered(Success));
  }

  lemma StaleFlagIsReachable()
    ensures var s := Run(START, STALE); s.joinDeferred && s.firstBeaconNotified && !s.stopping
  {
    var s := Step(Step(START, STALE[0]), STALE[1]);
    var t := Step(Step(s, STALE[2]), STALE[3]);
    FirstJoinAssociates(s);
    FirstJoinSucceeds(s, t);
    SecondJoinWaits(t);
    RunOfFive(START, STALE);
  }

  lemma StaleCompletion(s: State)
    requires Inv(s) && !s.stopping && s.joinDeferred && s.firstBeaconNotified
    ensures SucceedsUnearned(HearPort(s, true).log)
  {
    var t := s.(portAuthorized := true).Log(PortChanged(true));
    var log := HearPort(s, true).log;
    assert log[..|log| - 1] == t.log;
    WaitingWaits(t.log);
    PrefixTrace(log, |log| - 1);
    WaitingIsNotEarned(log, |log| - 1);
  }

  ghost predicate SucceedsUnearned(log: seq<Event>) {
    |log| > 0 && Reports(log[|log| - 1], ConnectComplete(0)) && !Earned(log, |log| - 1)
  }

  lemma StaleRun(ops: seq<Op>, s: State)
    requires s == Run(START, ops) && s.joinDeferred && s.firstBeaconNotified && !s.stopping
    ensures SucceedsUnearned(Run(START, ops + [Hear(PortSignal(true))]).log)
  {
    Reachable(ops);
    StaleCompletion(s);
    RunThen(START, s, ops, Hear(PortSignal(true)));
  }

  /** A join that never left the driver is reported as successful. */
  lemma WaitingJoinMaySucceed()
    ensures SucceedsUnearned(Run(START, STALE + [Hear(PortSignal(true))]).log)
  {
    StaleFlagIsReachable();
    StaleRun(STALE, Run(START, STALE));
  }

  // -------------------------------------------------------------------------
  // The link
  // -------------------------------------------------------------------------

  /** The link is up as far as the reports before `i` say, since the one at `u`. */
  predicate LinkUpSince(log: seq<Event>, i: nat, u: nat) {
    && u < i <= |log| && Reports(log[u], LinkStatus(true))
    && forall k :: u < k < i ==> !Reports(log[k], LinkStatus(false))
  }

  lemma {:induction false} LinkWasReported(log: seq<Event>) returns (u: nat)
    requires Joins(log).link
    ensures LinkUpSince(log, |log|, u)
  {
    var last := |log| - 1;
    if Reports(log[last], LinkStatus(true)) {
      u := last;
    } else {
      u := LinkWasReported(log[..last]);
    }
  }

  /** The link is reported as lost only after it was reported as up, and once for that report. */
  lemma LostLinkWasUp(ops: seq<Op>, i: nat)
    requires var log := Run(START, ops).log; i < |log| && Reports(log[i], LinkStatus(false))
    ensures exists u: nat :: LinkUpSince(Run(START, ops).log, i, u)
  {
    var log := Run(START, ops).log;
    Reachable(ops);
    LawfulBefore(log, i + 1);
    assert log[..i + 1][..i] == log[..i];
    var u := LinkWasReported(log[..i]);
    assert LinkUpSince(log, i, u);
  }

  // -------------------------------------------------------------------------
  // Scans
  // -------------------------------------------------------------------------

  /** Every accepted scan is answered, dropped by stopping or pending, and none is answered
      twice, exactly when no request is answered with an error after its scan was reported as
      done. */
  lemma ScansAreConserved(ops: seq<Op>)
    ensures var s := Run(START, ops);
      var b, pending := Scans(s.log), if s.scanPending then 1 else 0;
      && b.accepted + b.strays == b.done + b.dropped + pending
      && (b.accepted == b.done + b.dropped + pending <==> b.strays == 0)
      && (s.stopping ==> pending == 0)
  {
    Reachable(ops);
  }

  const FAILING := ScanEnv(true, false, Initial, true, false, true, [], [Halted(true)], true)

  /** The interface halts inside the state change that starts the scan. */
  const STRAY_SCAN := [Do(Scan(true, ANY, FAILING))]

  lemma FailedScanMayFinish()
    ensures var s := Run(START, STRAY_SCAN);
      && Scans(s.log).accepted == 0 && Scans(s.log).done == 1 && Scans(s.log).strays == 1
      && |s.log| > 0 && s.log[|s.log| - 1] == ScanAnswered(Error)
  {
    assert STRAY_SCAN[1..] == [];
    assert Run(START, STRAY_SCAN) == Run(Step(START, STRAY_SCAN[0]), []);
    FailedScan();
    ScansAreConserved(STRAY_SCAN);
  }

  lemma FailedScan()
    ensures var s := Perform(START, Scan(true, ANY, FAILING));
      && Scans(s.log).accepted == 0 && Scans(s.log).done == 1 && Scans(s.log).dropped == 0 && !s.scanPending
      && |s.log| > 0 && s.log[|s.log| - 1] == ScanAnswered(Error)
  {
    var t := ScanBegun(START, ANY, FAILING);
    HaltFinishesScan(t);
    FailedScanIs(START, t);
    ScanAnswerFrame(HearOne(t, Halted(true)).(scanPending := false), Error);
  }

  lemma FailedScanIs(s: State, t: State)
    requires !s.scanPending && !s.joinPending && !s.stopping && t == ScanBegun(s, ANY, FAILING)
    ensures Perform(s, Scan(true, ANY, FAILING)) ==
            HearOne(t, Halted(true)).(scanPending := false).Log(ScanAnswered(Error))
  {
    assert FAILING.moving[1..] == [];
    assert HearAll(t, FAILING.moving) == HearAll(HearOne(t, Halted(true)), []);
    assert ScanOpenedWith(t, FAILING) == HearOne(t, Halted(true)).(scanPending := false);
    assert BeginScan(s, true, ANY, FAILING) == ScanOpenedWith(t, FAILING);
    assert ScanStatus(s, true, ANY, FAILING) == Error;
  }

  lemma HaltFinishesScan(s: State)
    requires s.scanPending && !s.joinPending && !s.stopping
    ensures var b := Scans(HearOne(s, Halted(true)).log);
      && b.accepted == Scans(s.log).accepted && b.done == Scans(s.log).done + 1 && b.dropped == Scans(s.log).dropped
  {
    var t := s.(scanPending := false, scanCompleted := false);
    assert Replay(t, []) == t;
    assert FinishScan(s, Aborted, []) == t.Log(ScanDone(Aborted));
  }

  function AsReplays(nodes: seq<Node>): seq<Event> {
    seq(|nodes|, i requires 0 <= i < |nodes| => Replayed(nodes[i]))
  }

  lemma AsReplaysSplit(nodes: seq<Node>)
    requires nodes != []
    ensures AsReplays(nodes) == [Replayed(nodes[0])] + AsReplays(nodes[1..])
  {
  }

  lemma PublishLogs(s: State, n: Node, e: Event)
    ensures Publish(s, n).Log(e).log == s.log + [e]
  {
  }

  lemma {:induction false} ReplayLogs(s: State, nodes: seq<Node>)
    ensures Replay(s, nodes).log == s.log + AsReplays(nodes)
    decreases |nodes|
  {
    if nodes != [] {
      var t := Publish(s, nodes[0]).Log(Replayed(nodes[0]));
      PublishLogs(s, nodes[0], Replayed(nodes[0]));
      ReplayLogs(t, nodes[1..]);
      AsReplaysSplit(nodes);
      assert t.log + AsReplays(nodes[1..]) == s.log + AsReplays(nodes);
    }
  }

  /** A scan that succeeds reports the cached networks that match its filter and can be
      published, all of them and no other, in cache order, and then its completion. */
  lemma ResultsPrecedeCompletion(s: State, nodes: seq<Node>)
    requires s.scanPending
    ensures var results := Replays(s.filter, nodes);
      && FinishScan(s, Success, nodes).log == s.log + AsReplays(results) + [ScanDone(Success)]
      && forall n :: n in results <==> n in nodes && s.filter.Selects(n) && n.publishable
  {
    ReplaysMatch(s.filter, nodes);
    ReplayLogs(s.(scanPending := false, scanCompleted := false), Replays(s.filter, nodes));
  }

  /** A scan that ends otherwise reports no network. */
  lemma NoResultsOnFailure(s: State, status: IOReturn, nodes: seq<Node>)
    requires s.scanPending && status != Success
    ensures FinishScan(s, status, nodes).log == s.log + [ScanDone(status)]
  {
    ReplayLogs(s.(scanPending := false, scanCompleted := false), []);
  }

  lemma {:induction false} LawfulScanBefore(log: seq<Event>, i: nat)
    requires Scans(log).lawful && i <= |log|
    ensures Scans(log[..i]).lawful
  {
    if i == |log| {
      assert log[..i] == log;
    } else {
      LawfulScanBefore(log[..|log| - 1], i);
      assert log[..|log| - 1][..i] == log[..i];
    }
  }

  /** In every run a network is reported only if the latest scan asked for it. */
  lemma ReportedNetworksWereAskedFor(ops: seq<Op>, i: nat, o: nat)
    requires var log := Run(START, ops).log;
      && i < |log| && log[i].Replayed? && o < i && log[o].ScanOpened?
      && forall k :: o < k < i ==> !log[k].ScanOpened?
    ensures var log := Run(START, ops).log; log[o].filter.Selects(log[i].node)
  {
    Reachable(ops);
    ReplayIsSelected(Run(START, ops).log, i, o);
  }

  lemma ReplayIsSelected(log: seq<Event>, i: nat, o: nat)
    requires Scans(log).lawful && i < |log| && log[i].Replayed? && o < i && log[o].ScanOpened?
    requires forall k :: o < k < i ==> !log[k].ScanOpened?
    ensures log[o].filter.Selects(log[i].node)
  {
    LawfulScanBefore(log, i + 1);
    assert log[..i + 1][..i] == log[..i];
    LatestFilter(log[..i], o);
  }

  /** A scan is reported as successful only if the driver finished it or its results are cached,
      and as timed out only if not; a first report that belongs to an earlier scan is not
      counted. */
  lemma ScanStatusIsEarned(ops: seq<Op>, i: nat)
    requires i < |Run(START, ops).log|
    ensures var log := Run(START, ops).log;
      && (log[i] == ScanDone(Success) ==> Scans(log[..i]).heard >= Scans(log[..i]).needed)
      && (log[i] == ScanDone(Timeout) ==> Scans(log[..i]).heard < Scans(log[..i]).needed)
  {
    Reachable(ops);
    StatusIsEarned(Run(START, ops).log, i);
  }

  lemma StatusIsEarned(log: seq<Event>, i: nat)
    requires Scans(log).lawful && i < |log|
    ensures log[i] == ScanDone(Success) ==> Scans(log[..i]).Over()
    ensures log[i] == ScanDone(Timeout) ==> !Scans(log[..i]).Over()
  {
    LawfulScanBefore(log, i + 1);
    assert log[..i + 1][..i] == log[..i];
  }

  lemma {:induction false} LatestFilter(log: seq<Event>, o: nat)
    requires o < |log| && log[o].ScanOpened? && forall k :: o < k < |log| ==> !log[k].ScanOpened?
    ensures Scans(log).filter == log[o].filter
  {
    if o < |log| - 1 {
      LatestFilter(log[..|log| - 1], o);
    }
  }

  // -------------------------------------------------------------------------
  // Messages and beacons
  // -------------------------------------------------------------------------

  /** Messages leave in the order they were accepted; what has not left is in the queue. */
  lemma MessagesAreFirstInFirstOut(ops: seq<Op>)
    ensures var s := Run(START, ops);
      var b := Messages(s.log);
      && b.delivered <= b.queued && |s.queue| <= QUEUE
      && (!s.stopping ==> b.queued == b.delivered + s.queue)
  {
    Reachable(ops);
  }

  lemma {:induction false} LawfulQueueBefore(log: seq<Event>, i: nat)
    requires Messages(log).lawful && i <= |log|
    ensures Messages(log[..i]).lawful
  {
    if i == |log| {
      assert log[..i] == log;
    } else {
      LawfulQueueBefore(log[..|log| - 1], i);
      assert log[..|log| - 1][..i] == log[..i];
    }
  }

  lemma {:induction false} StoppedSince(log: seq<Event>)
    ensures Messages(log).stopping <==> Stopping in log
  {
    if log != [] {
      StoppedSince(log[..|log| - 1]);
      assert log == log[..|log| - 1] + [log[|log| - 1]];
    }
  }

  /** A message is lost exactly when 32 others wait or the front end has stopped. */
  lemma LostExactlyWhenFull(ops: seq<Op>, i: nat)
    requires var log := Run(START, ops).log; i < |log| && log[i].Posted?
    ensures var log := Run(START, ops).log;
      var b := Messages(log[..i]);
      !log[i].queued <==> Stopping in log[..i] || |b.queued| - |b.delivered| == QUEUE
  {
    var log := Run(START, ops).log;
    Reachable(ops);
    LawfulQueueBefore(log, i + 1);
    assert log[..i + 1][..i] == log[..i];
    StoppedSince(log[..i]);
  }

  lemma DeliveredFirst(s: State)
    requires QueueInv(s, Messages(s.log)) && !s.stopping && s.queue != []
    ensures var t := DeliverOne(s);
      QueueInv(t, Messages(t.log)) && Messages(t.log).queued == Messages(s.log).queued && !t.stopping
  {
    var b := Messages(s.log);
    assert b.queued[|b.delivered|] == s.queue[0];
    assert (b.delivered + [s.queue[0]]) + s.queue[1..] == b.delivered + s.queue;
  }

  /** Draining leaves the queue empty and everything accepted delivered. */
  lemma {:induction false} DrainDeliversAll(s: State)
    requires QueueInv(s, Messages(s.log)) && !s.stopping
    ensures var t := Drain(s); t.queue == [] && Messages(t.log).delivered == Messages(s.log).queued
    decreases |s.queue|
  {
    if s.queue != [] {
      DeliveredFirst(s);
      DrainDeliversAll(DeliverOne(s));
    }
  }

  predicate Agree(b: BeaconView, unreported: nat) {
    (b.reported + unreported) % WORD == b.counted % WORD
  }

  /** Beacons carried by accepted updates and beacons still to report are the beacons
      counted, modulo the width of the counters. */
  lemma BeaconsAreAccountedFor(ops: seq<Op>)
    ensures Agree(Beacons(Run(START, ops).log), Unreported(Run(START, ops)))
  {
    Reachable(ops);
    UnreportedIsExact(Run(START, ops));
  }

  lemma UnreportedIsExact(s: State)
    requires BeaconInv(s, Beacons(s.log))
    ensures Agree(Beacons(s.log), Unreported(s))
  {
  }
}
