/** The station front end: one join and one scan at a time, driver signals that may arrive
    inside the front end's own call-outs, and a bounded queue of messages between the
    receive path and the gate. */
module Station {
  import opened Common

  const QUEUE := 32
  const WORD := 0x1_0000_0000

  // -------------------------------------------------------------------------
  // What is seen from outside
  // -------------------------------------------------------------------------

  datatype Message =
    | AssocComplete(status: nat)
    | LinkStatus(up: bool)
    | FirstBeacon
    | ConnectComplete(status: nat)
    | Deauth
    | LqmUpdate(delta: nat)

  /** A cached or freshly received network. `publishable` stands for its element stream,
      name length and channel checks; `mine` says that it is the network being joined. */
  datatype Node = Node(hasChannel: bool, channel: nat, hasElements: bool, ssid: Bytes,
                       publishable: bool, mine: bool, fits: bool)

  /** The networks a scan asked for; an empty name asks for any. */
  datatype Filter = Filter(restricted: bool, channels: set<nat>, ssid: Bytes) {
    predicate Selects(n: Node) {
      && n.hasChannel && n.hasElements
      && (restricted ==> n.channel in channels)
      && (ssid != [] ==> n.ssid == ssid)
    }
  }

  const ANY := Filter(false, {}, [])

  datatype Event =
    | Posted(message: Message, queued: bool)
    | Delivered(message: Message)
    | Stopping
    | JoinDeferred
    | JoinStarted
    | JoinAnswered(status: IOReturn)
    | JoinWithdrawn
    | PortChanged(up: bool)
    | BeaconCounted
    | ScanOpened(filter: Filter, skip: bool)
    | ScanHeard
    | ScanCached
    | ScanAnswered(status: IOReturn)
    | ScanDropped
    | Replayed(node: Node)
    | ScanDone(status: IOReturn)

  /** How far the current join has been reported: 1 after its association, 2 after the link,
      3 after the first beacon. */
  datatype Progress = NoJoin | Waiting | Reported(stage: nat)

  function Advance(p: Progress, m: Message): Progress {
    if p == Reported(0) && m == AssocComplete(0) then Reported(1)
    else if p == Reported(1) && m == LinkStatus(true) then Reported(2)
    else if p == Reported(2) && m == FirstBeacon then Reported(3)
    else p
  }

  /** The latest join: whether it waited for the radio, whether it was completed or withdrawn,
      and whether the request for it has been answered. */
  datatype Latest = Latest(deferred: bool, ended: bool, answered: bool)

  /** Joins as the log tells them. `strays`: requests answered with an error after their join had
      been completed, and second completions of one join. `waived`: joins reported as successful
      while they still waited for the radio. `lawful`: any other join succeeds only after its
      association, link and first beacon were reported, in this order, every join only with the
      port authorized, and the link is reported as lost only after it was reported. */
  datatype JoinView = JoinView(accepted: nat, completed: nat, withdrawn: nat, strays: nat, waived: nat,
                               latest: Latest, progress: Progress, port: bool, link: bool, lawful: bool)

  const NO_JOINS := JoinView(0, 0, 0, 0, 0, Latest(false, true, true), NoJoin, false, false, true)

  function NoteJoin(b: JoinView, e: Event): JoinView {
    match e
    case Posted(m, _) => NoteReport(b, m)
    case JoinDeferred => b.(progress := Waiting, latest := Latest(true, false, false))
    case JoinStarted => b.(progress := Reported(0), port := false, latest := Launched(b.latest))
    case JoinAnswered(status) => NoteAnswer(b, status == Success)
    case JoinWithdrawn => b.(withdrawn := b.withdrawn + 1, latest := b.latest.(ended := true))
    case PortChanged(up) => b.(port := up)
    case _ => b
  }

  /** A join that waited for the radio was answered when it was accepted. */
  function Launched(j: Latest): Latest {
    Latest(false, false, j.deferred && !j.ended)
  }

  /** An error ends the join that the request started. */
  function NoteAnswer(b: JoinView, success: bool): JoinView {
    if success then b.(accepted := b.accepted + 1, latest := b.latest.(answered := true))
    else if b.latest.answered then b
    else
      b.(strays := b.strays + (if b.latest.ended then 1 else 0), latest := b.latest.(ended := true, answered := true))
  }

  function NoteReport(b: JoinView, m: Message): JoinView {
    if m.ConnectComplete? then NoteCompletion(b, m.status == 0)
    else if m.LinkStatus? then
      b.(progress := Advance(b.progress, m), link := m.up, lawful := b.lawful && (m.up || b.link))
    else b.(progress := Advance(b.progress, m))
  }

  function NoteCompletion(b: JoinView, success: bool): JoinView {
    var earned := success ==> b.port && (b.progress == Reported(3) || b.progress == Waiting);
    b.(completed := b.completed + 1, strays := b.strays + (if b.latest.ended then 1 else 0),
       waived := b.waived + (if success && b.progress == Waiting then 1 else 0),
       latest := b.latest.(ended := true), lawful := b.lawful && earned)
  }

  function Joins(log: seq<Event>): JoinView {
    if log == [] then NO_JOINS else NoteJoin(Joins(log[..|log| - 1]), log[|log| - 1])
  }

  /** Scans as the log tells them. `strays`: requests answered with an error after their scan had
      been reported as done. `lawful`: every replayed network matches the filter, a scan
      succeeds only if the driver finished it (twice, if the first report belongs to a scan under
      way before) or its results are cached, and runs into its time limit only if not. */
  datatype ScanView = ScanView(accepted: nat, done: nat, dropped: nat, strays: nat, ended: bool, answered: bool,
                               filter: Filter, needed: nat, heard: nat, lawful: bool) {
    predicate Over() {
      heard >= needed
    }
  }

  function NoteScan(b: ScanView, e: Event): ScanView {
    match e
    case ScanOpened(filter, skip) =>
      b.(filter := filter, needed := if skip then 2 else 1, heard := 0, ended := false, answered := false)
    case ScanHeard => b.(heard := b.heard + 1)
    case ScanCached => b.(heard := b.needed)
    case ScanAnswered(status) => NoteScanAnswer(b, status == Success)
    case ScanDropped => b.(dropped := b.dropped + 1)
    case Replayed(n) => b.(lawful := b.lawful && b.filter.Selects(n))
    case ScanDone(status) =>
      b.(done := b.done + 1, ended := true,
         lawful := b.lawful && (status == Success ==> b.Over()) && (status == Timeout ==> !b.Over()))
    case _ => b
  }

  function NoteScanAnswer(b: ScanView, success: bool): ScanView {
    if success then b.(accepted := b.accepted + 1, answered := true)
    else if b.answered then b
    else b.(strays := b.strays + (if b.ended then 1 else 0), answered := true)
  }

  function Scans(log: seq<Event>): ScanView {
    if log == [] then ScanView(0, 0, 0, 0, true, true, ANY, 1, 0, true)
    else NoteScan(Scans(log[..|log| - 1]), log[|log| - 1])
  }

  /** Messages as the log tells them. `lawful`: a message is refused exactly when the queue
      is full or the front end is stopping, and messages come out in the order they went in. */
  datatype QueueView = QueueView(queued: seq<Message>, delivered: seq<Message>, stopping: bool, lawful: bool)

  function NoteQueue(b: QueueView, e: Event): QueueView {
    match e
    case Posted(m, queued) =>
      var due := queued <==> !b.stopping && |b.queued| - |b.delivered| != QUEUE;
      if queued then b.(queued := b.queued + [m], lawful := b.lawful && due) else b.(lawful := b.lawful && due)
    case Delivered(m) =>
      b.(delivered := b.delivered + [m],
         lawful := b.lawful && |b.delivered| < |b.queued| && m == b.queued[|b.delivered|])
    case Stopping => b.(stopping := true)
    case _ => b
  }

  function Messages(log: seq<Event>): QueueView {
    if log == [] then QueueView([], [], false, true) else NoteQueue(Messages(log[..|log| - 1]), log[|log| - 1])
  }

  /** Beacons counted, and beacons reported in updates that were queued. */
  datatype BeaconView = BeaconView(counted: nat, reported: nat)

  function NoteBeacon(b: BeaconView, e: Event): BeaconView {
    match e
    case BeaconCounted => b.(counted := b.counted + 1)
    case Posted(m, queued) => if queued && m.LqmUpdate? then b.(reported := b.reported + m.delta) else b
    case _ => b
  }

  function Beacons(log: seq<Event>): BeaconView {
    if log == [] then BeaconView(0, 0) else NoteBeacon(Beacons(log[..|log| - 1]), log[|log| - 1])
  }

  // -------------------------------------------------------------------------
  // State and surroundings
  // -------------------------------------------------------------------------

  datatype State = State(
    stopping: bool,
    scanPending: bool,
    scanCompleted: bool,
    scanSkip: bool,
    filter: Filter,
    joinPending: bool,
    joinDeferred: bool,
    assocNotified: bool,
    firstBeaconNotified: bool,
    portAuthorized: bool,
    linkIndicated: bool,
    bssValid: bool,
    lqmBeacons: nat,
    lqmReported: nat,
    queue: seq<Message>,
    log: seq<Event>
  ) {
    function Log(e: Event): (t: State)
      ensures t == this.(log := t.log)
      ensures Joins(t.log) == NoteJoin(Joins(log), e) && Scans(t.log) == NoteScan(Scans(log), e)
      ensures Messages(t.log) == NoteQueue(Messages(log), e) && Beacons(t.log) == NoteBeacon(Beacons(log), e)
    {
      assert (log + [e])[..|log|] == log;
      this.(log := log + [e])
    }
  }

  const START := State(false, false, false, false, ANY, false, false, false, false, false, false,
                       false, 0, 0, [], [])

  /** The link-layer state of the radio when a request arrives. */
  datatype Link = Initial | Scanning | Authenticating | Associating | Running

  /** What surrounds one attempt to start a join: whether its security settings are
      supported, the interface flags, the signals that arrive while the old network is left,
      the outcome of the key setup, and the state change that starts the scan. */
  datatype Attempt = Attempt(supported: bool, running: bool, up: bool, link: Link, leaving: seq<Signal>,
                             setup: IOReturn, scanning: bool, moving: seq<Signal>, moveFails: bool)

  datatype Signal =
    | PortSignal(up: bool)
    | Ready(attempt: Attempt)
    | Halted(reconfiguring: bool)
    | Beacon(node: Node, frame: bool, linkScanning: bool)
    | ScanFinished
    | AssocDone(status: nat)
    | Deauthenticated
    | JoinTimeout(leaving: seq<Signal>)
    | ScanTimer(nodes: seq<Node>)

  /** What surrounds a scan request. */
  datatype ScanEnv = ScanEnv(running: bool, background: bool, link: Link, usable: bool, skip: bool,
                             canBackground: bool, nodes: seq<Node>, moving: seq<Signal>, moveFails: bool)

  datatype Command =
    | Scan(decoded: bool, filter: Filter, env: ScanEnv)
    | AbortScan
    | Associate(reconfiguring: bool, attempt: Attempt)
    | AbortJoin(leaving: seq<Signal>)
    | Leave(leaving: seq<Signal>)

  datatype Op = Do(command: Command) | Hear(signal: Signal) | Deliver | Stop

  // -------------------------------------------------------------------------
  // The message queue
  // -------------------------------------------------------------------------

  predicate CanQueue(s: State) {
    !s.stopping && |s.queue| != QUEUE
  }

  function Post(s: State, m: Message): State {
    s.(queue := if CanQueue(s) then s.queue + [m] else s.queue).Log(Posted(m, CanQueue(s)))
  }

  function DeliverOne(s: State): State {
    if s.stopping || s.queue == [] then s else s.(queue := s.queue[1..]).Log(Delivered(s.queue[0]))
  }

  function Drain(s: State): State
    decreases |s.queue|
  {
    if s.stopping || s.queue == [] then s else Drain(DeliverOne(s))
  }

  // -------------------------------------------------------------------------
  // Scans
  // -------------------------------------------------------------------------

  /** The cached networks that a finished scan reports: they match the filter and pass the
      publication checks. */
  function Replays(filter: Filter, nodes: seq<Node>): seq<Node> {
    if nodes == [] then []
    else if filter.Selects(nodes[0]) && nodes[0].publishable then [nodes[0]] + Replays(filter, nodes[1..])
    else Replays(filter, nodes[1..])
  }

  function Replay(s: State, nodes: seq<Node>): State
    decreases |nodes|
  {
    if nodes == [] then s else Replay(Publish(s, nodes[0]).Log(Replayed(nodes[0])), nodes[1..])
  }

  /** Publication keeps the snapshot of the associated network up to date. */
  function Publish(s: State, n: Node): State {
    if n.publishable && s.assocNotified && n.mine then s.(bssValid := n.fits) else s
  }

  function FinishScan(s: State, status: IOReturn, nodes: seq<Node>): State {
    if !s.scanPending then s
    else
      var results := if status == Success then Replays(s.filter, nodes) else [];
      Replay(s.(scanPending := false, scanCompleted := false), results).Log(ScanDone(status))
  }

  // -------------------------------------------------------------------------
  // Joins
  // -------------------------------------------------------------------------

  function FinishJoin(s: State, status: nat): State {
    if !s.joinPending then s
    else Post(s.(joinPending := false, joinDeferred := false), ConnectComplete(status))
  }

  function LeaveNetwork(s: State, leaving: seq<Signal>): State
    decreases leaving, 1
  {
    HearAll(Left(s), leaving)
  }

  function Left(s: State): State {
    var t := if s.joinPending then s.Log(JoinWithdrawn) else s;
    t.(joinPending := false, joinDeferred := false, bssValid := false)
  }

  function Deferral(s: State): State {
    s.(joinDeferred := true, joinPending := true).Log(JoinDeferred)
  }

  function Started(s: State): State {
    s.(joinPending := true, assocNotified := false, firstBeaconNotified := false, portAuthorized := false,
       bssValid := false).Log(JoinStarted)
  }

  predicate Connected(link: Link) {
    link.Running? || link.Authenticating? || link.Associating?
  }

  /** The status that `StartJoin` returns. */
  function StartStatus(s: State, reconfiguring: bool, a: Attempt): IOReturn {
    if Defers(s, reconfiguring, a) then Success
    else if !a.supported then Unsupported
    else if !a.running || s.joinPending || s.scanPending then Busy
    else if a.setup != Success then a.setup
    else if !a.scanning && a.moveFails then Error
    else Success
  }

  predicate Defers(s: State, reconfiguring: bool, a: Attempt) {
    a.supported && !s.joinPending && reconfiguring && a.up
  }

  function StartJoin(s: State, reconfiguring: bool, a: Attempt): State
    decreases a, 1
  {
    if Defers(s, reconfiguring, a) then Deferral(s)
    else if !a.supported || !a.running || s.joinPending || s.scanPending then s
    else if a.setup != Success then Departed(s, a)
    else Move(Started(Departed(s, a)), a)
  }

  /** A radio that is already with a network leaves it first. */
  function Departed(s: State, a: Attempt): State
    decreases a, 0
  {
    if Connected(a.link) then LeaveNetwork(s, a.leaving) else s
  }

  function Move(s: State, a: Attempt): State
    decreases a, 0
  {
    if a.scanning then s
    else
      var t := HearAll(s, a.moving);
      if a.moveFails then t.(joinPending := false) else t
  }

  /** A deferred join is started once the radio is ready; a failure is reported. */
  function ResumeJoin(s: State, a: Attempt): State
    decreases a, 2
  {
    if !s.joinDeferred then s
    else
      var t := s.(joinDeferred := false, joinPending := false);
      var u := StartJoin(t, false, a);
      if StartStatus(t, false, a) == Success then u else FinishJoin(u.(joinPending := true), 1)
  }

  // -------------------------------------------------------------------------
  // Signals
  // -------------------------------------------------------------------------

  function HearAll(s: State, signals: seq<Signal>): State
    decreases signals, 0
  {
    if signals == [] then s else HearAll(HearOne(s, signals[0]), signals[1..])
  }

  function HearOne(s: State, signal: Signal): State
    decreases signal, 0
  {
    if s.stopping then s
    else
      match signal
      case PortSignal(up) => HearPort(s, up)
      case Ready(a) => ResumeJoin(s, a)
      case Halted(reconfiguring) => HearHalted(s, reconfiguring)
      case Beacon(n, frame, linkScanning) => HearBeacon(s, n, frame, linkScanning)
      case ScanFinished => HearScanFinished(s)
      case AssocDone(status) => HearAssoc(s, status)
      case Deauthenticated => FinishJoin(Post(s, Deauth), 1)
      case JoinTimeout(leaving) => LeaveNetwork(FinishJoin(s, 1), leaving)
      case ScanTimer(nodes) => FinishScan(s, if s.scanCompleted then Success else Timeout, nodes)
  }

  function HearPort(s: State, up: bool): State {
    var t := s.(portAuthorized := up).Log(PortChanged(up));
    if up && t.joinPending && t.firstBeaconNotified then FinishJoin(t, 0)
    else if !up && t.linkIndicated then LinkLost(t)
    else t
  }

  function LinkLost(s: State): State {
    Post(s.(linkIndicated := false, bssValid := false), LinkStatus(false))
  }

  function HearHalted(s: State, reconfiguring: bool): State {
    var t := FinishScan(s, if reconfiguring then Aborted else Offline, []);
    FinishJoin(t, 1).(portAuthorized := false).Log(PortChanged(false))
  }

  function HearScanFinished(s: State): State {
    if !s.scanPending then s
    else if s.scanSkip then s.(scanSkip := false).Log(ScanHeard)
    else s.(scanCompleted := true).Log(ScanHeard)
  }

  function HearAssoc(s: State, status: nat): State {
    if !s.joinPending || s.assocNotified then s
    else
      var t := AssocReported(s, status);
      if status == 0 then t else FinishJoin(t, status)
  }

  function AssocReported(s: State, status: nat): State {
    Post(s.(assocNotified := status == 0), AssocComplete(status))
  }

  function HearBeacon(s: State, n: Node, frame: bool, linkScanning: bool): State {
    var t := CountBeacon(s, n, frame);
    var listens := t.scanPending || t.joinPending || linkScanning || (t.portAuthorized && n.mine);
    var u := if listens then Publish(t, n) else t;
    if u.joinPending && u.assocNotified && !u.firstBeaconNotified && n.mine && u.bssValid then FirstBeaconSeen(u) else u
  }

  function FirstBeaconSeen(s: State): State {
    var t := LinkReported(s);
    if t.portAuthorized then FinishJoin(t, 0) else t
  }

  function LinkReported(s: State): State {
    Post(Post(s.(firstBeaconNotified := true, linkIndicated := true), LinkStatus(true)), FirstBeacon)
  }

  /** Counts a beacon of the associated network; every eighth one is reported. */
  function CountBeacon(s: State, n: Node, frame: bool): State {
    if !(s.assocNotified && (s.joinPending || s.portAuthorized) && n.mine && frame) then s
    else
      var t := Counted(s);
      if t.portAuthorized && t.lqmBeacons % 8 == 0 then ReportBeacons(t) else t
  }

  function Counted(s: State): State {
    s.(lqmBeacons := (s.lqmBeacons + 1) % WORD).Log(BeaconCounted)
  }

  /** The beacons counted since the last update that was queued. */
  function Unreported(s: State): nat {
    (s.lqmBeacons - s.lqmReported) % WORD
  }

  function ReportBeacons(s: State): State {
    if Unreported(s) == 0 then s else Update(s)
  }

  /** The beacons count as reported only if the update was queued. */
  function Update(s: State): State {
    Post(s, LqmUpdate(Unreported(s))).(lqmReported := if CanQueue(s) then s.lqmBeacons else s.lqmReported)
  }

  // -------------------------------------------------------------------------
  // Commands
  // -------------------------------------------------------------------------

  function ScanStatus(s: State, decoded: bool, filter: Filter, env: ScanEnv): IOReturn {
    if !decoded then BadArgument
    else if !env.running then NotReady
    else if s.scanPending || s.joinPending || env.background then Busy
    else if env.link.Authenticating? || env.link.Associating? then Busy
    else if filter.restricted && !env.usable then Unsupported
    else if env.link.Running? && env.canBackground && env.moveFails then Busy
    else if !env.link.Running? && !env.link.Scanning? && env.moveFails then Error
    else Success
  }

  predicate ScanOpens(s: State, decoded: bool, filter: Filter, env: ScanEnv) {
    && decoded && env.running && !s.scanPending && !s.joinPending && !env.background
    && !env.link.Authenticating? && !env.link.Associating? && (filter.restricted ==> env.usable)
  }

  function BeginScan(s: State, decoded: bool, filter: Filter, env: ScanEnv): State {
    if !ScanOpens(s, decoded, filter, env) then s
    else ScanOpenedWith(ScanBegun(s, filter, env), env)
  }

  /** The next report of the driver belongs to a scan that was under way before. */
  predicate Skips(env: ScanEnv) {
    env.link.Scanning? && env.skip
  }

  function ScanBegun(s: State, filter: Filter, env: ScanEnv): State {
    var t := s.(scanPending := true, scanCompleted := false, scanSkip := Skips(env), filter := filter);
    t.Log(ScanOpened(filter, Skips(env)))
  }

  /** A radio that cannot scan now answers from its cache. */
  function Cached(s: State): State {
    s.(scanCompleted := true).Log(ScanCached)
  }

  function ScanOpenedWith(s: State, env: ScanEnv): State {
    if env.link.Running? && !env.canBackground then FinishScan(Cached(s), Success, env.nodes)
    else if env.link.Scanning? then s
    else
      var t := HearAll(s, env.moving);
      if env.moveFails then t.(scanPending := false) else t
  }

  function Perform(s: State, c: Command): State {
    if s.stopping then s
    else
      match c
      case Scan(decoded, filter, env) =>
        BeginScan(s, decoded, filter, env).Log(ScanAnswered(ScanStatus(s, decoded, filter, env)))
      case AbortScan => FinishScan(s, Aborted, [])
      case Associate(reconfiguring, a) =>
        StartJoin(s, reconfiguring, a).Log(JoinAnswered(StartStatus(s, reconfiguring, a)))
      case AbortJoin(leaving) => LeaveNetwork(s, leaving)
      case Leave(leaving) => LeaveNetwork(s, leaving)
  }

  function Halt(s: State): State {
    if s.stopping then s else Silenced(DropJoin(DropScan(s)))
  }

  function DropScan(s: State): State {
    if s.scanPending then s.(scanPending := false).Log(ScanDropped) else s
  }

  function DropJoin(s: State): State {
    if s.joinPending then s.(joinPending := false, joinDeferred := false).Log(JoinWithdrawn) else s
  }

  function Silenced(s: State): State {
    s.(stopping := true, queue := []).Log(Stopping)
  }

  function Step(s: State, op: Op): State {
    match op
    case Do(c) => Perform(s, c)
    case Hear(signal) => HearOne(s, signal)
    case Deliver => DeliverOne(s)
    case Stop => Halt(s)
  }

  function Run(s: State, ops: seq<Op>): State
    decreases |ops|
  {
    if ops == [] then s else Run(Step(s, ops[0]), ops[1..])
  }
}
