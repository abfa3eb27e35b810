/** The accepted configuration of the AWDL backend: what makes a snapshot valid, what a
    successful open installs, and how each request edits it. */
module AwdlSettings {
  import opened Common

  const VERSION := 1
  const SLOTS := 16
  const TABLE := 32

  // -------------------------------------------------------------------------
  // Snapshots
  // -------------------------------------------------------------------------

  datatype Channel = Channel(version: nat, number: nat, wide: bool, twoGhz: bool, fiveGhz: bool)

  const NO_CHANNEL := Channel(0, 0, false, false, false)

  datatype SyncParams = SyncParams(windowLength: nat, windowPeriod: nat, extensionLength: nat, framePeriod: nat,
                                   nonElectionMaster: nat)

  datatype Parent = Parent(state: nat, flags: bv8, master: Address)

  datatype ChannelPlan = ChannelPlan(length: nat, encoding: nat, stepCount: nat, duplicateCount: nat,
                                     table: seq<Channel>)

  datatype Thresholds = Thresholds(first: nat, second: nat, third: nat, rssi: int)

  datatype Extension = Extension(first: nat, second: nat, third: nat, fourth: nat)

  datatype Settings = Settings(sync: SyncParams, parent: Parent, channels: ChannelPlan, thresholds: Thresholds,
                               extension: Extension, presence: nat, electionId: nat, metric: nat, actionMode: nat,
                               synchronize: bool)

  function BlankTable(): seq<Channel> {
    seq(TABLE, _ => NO_CHANNEL)
  }

  const BLANK := Settings(SyncParams(0, 0, 0, 0, 0), Parent(0, 0, ZERO_ADDRESS),
                          ChannelPlan(0, 0, 0, 0, BlankTable()), Thresholds(0, 0, 0, 0),
                          Extension(0, 0, 0, 0), 0, 0, 0, 0, false)

  // -------------------------------------------------------------------------
  // Channels
  // -------------------------------------------------------------------------

  /** The centre frequency of a channel number, or 0. */
  function Frequency(number: nat): nat {
    if 1 <= number <= 13 then 2407 + 5 * number
    else if 36 <= number <= 177 then 5000 + 5 * number
    else 0
  }

  /** `domain` holds the frequencies on which the regulatory domain allows to transmit. */
  predicate NumberAllowed(number: nat, domain: set<nat>) {
    Frequency(number) != 0 && Frequency(number) in domain
  }

  predicate ChannelAllowed(c: Channel, domain: set<nat>) {
    && c.version <= VERSION && c.number <= 255 && !c.wide
    && !(c.number <= 13 && c.fiveGhz) && !(c.number > 13 && c.twoGhz)
    && NumberAllowed(c.number, domain)
  }

  function Describe(number: nat): (c: Channel)
    ensures forall domain: set<nat> :: number <= 255 && NumberAllowed(number, domain) ==> ChannelAllowed(c, domain)
  {
    Channel(VERSION, number, false, number <= 13, number > 13)
  }

  // -------------------------------------------------------------------------
  // Validity
  // -------------------------------------------------------------------------

  predicate SyncValid(p: SyncParams) {
    && p.windowLength == 16 && p.windowPeriod == 16 && p.extensionLength == 16 && p.nonElectionMaster <= 1
    && (p.framePeriod == 110 || p.framePeriod == 440)
  }

  predicate PlanValid(p: ChannelPlan, presence: nat) {
    && p.encoding <= 1 && p.duplicateCount == 0 && p.length == SLOTS && p.stepCount + 1 == presence
    && |p.table| == TABLE
  }

  predicate ExtensionValid(e: Extension) {
    e.first <= 255 && e.second <= 255 && e.third <= 255 && e.fourth <= 255
  }

  predicate ThresholdsValid(t: Thresholds) {
    t.first == 0 && t.second == 0 && t.third == 0 && -127 <= t.rssi <= -1
  }

  /** The clauses that depend on the snapshot alone. */
  predicate Structural(s: Settings) {
    && SyncValid(s.sync) && PlanValid(s.channels, s.presence) && ExtensionValid(s.extension)
    && ThresholdsValid(s.thresholds) && s.presence in {1, 2, 4}
    && s.electionId <= 65535 && (s.actionMode == 0 || s.actionMode == 3)
    && s.parent.flags & !0x20 == 0 && s.parent.state <= 3
  }

  predicate ParentValid(p: Parent, mac: Address) {
    && (p.state == 2 ==> Unicast(p.master) && p.master != mac)
    && (p.state == 1 || p.state == 3 ==> p.master == mac)
  }

  /** Every slot in use is on an allowed channel, and some slot is in use. */
  predicate PlanAllowed(p: ChannelPlan, domain: set<nat>) {
    && |p.table| == TABLE
    && (forall i :: 0 <= i < SLOTS ==> p.table[i].number == 0 || ChannelAllowed(p.table[i], domain))
    && exists i :: 0 <= i < SLOTS && p.table[i].number != 0
  }

  predicate Valid(s: Settings, mac: Address, domain: set<nat>) {
    Structural(s) && ParentValid(s.parent, mac) && PlanAllowed(s.channels, domain)
  }

  /** Counts the slots in use, and stops at one that is not allowed. */
  method CheckPlan(p: ChannelPlan, domain: set<nat>) returns (ok: bool)
    requires |p.table| == TABLE
    ensures ok == PlanAllowed(p, domain)
  {
    var used := 0;
    for i := 0 to SLOTS
      invariant forall k :: 0 <= k < i ==> p.table[k].number == 0 || ChannelAllowed(p.table[k], domain)
      invariant used > 0 <==> exists k :: 0 <= k < i && p.table[k].number != 0
      invariant used >= 0
    {
      if p.table[i].number != 0 {
        if !ChannelAllowed(p.table[i], domain) {
          return false;
        }
        used := used + 1;
      }
    }
    return used != 0;
  }

  // -------------------------------------------------------------------------
  // Opening
  // -------------------------------------------------------------------------

  const SOCIAL := [6, 44, 149]

  function Pick(numbers: seq<nat>, domain: set<nat>): seq<nat> {
    if numbers == [] then []
    else if NumberAllowed(numbers[0], domain) then [numbers[0]] + Pick(numbers[1..], domain)
    else Pick(numbers[1..], domain)
  }

  lemma {:induction false} PickMeans(numbers: seq<nat>, domain: set<nat>)
    ensures forall n :: n in Pick(numbers, domain) <==> n in numbers && NumberAllowed(n, domain)
    ensures |Pick(numbers, domain)| <= |numbers|
  {
    if numbers != [] {
      PickMeans(numbers[1..], domain);
      assert numbers == [numbers[0]] + numbers[1..];
    }
  }

  /** The social channels that are allowed, repeated to fill the schedule. */
  function Schedule(domain: set<nat>): seq<nat>
    requires Pick(SOCIAL, domain) != []
  {
    var picked := Pick(SOCIAL, domain);
    seq(SLOTS, i requires 0 <= i < SLOTS => picked[i % |picked|])
  }

  function Table(schedule: seq<nat>): seq<Channel>
    requires |schedule| == SLOTS
  {
    seq(TABLE, i requires 0 <= i < TABLE => if i < SLOTS then Describe(schedule[i]) else NO_CHANNEL)
  }

  /** The settings of a successful open. */
  function Opened(mac: Address, domain: set<nat>): Settings
    requires Pick(SOCIAL, domain) != []
  {
    Settings(SyncParams(16, 16, 16, 110, 0), Parent(1, 0, mac),
             ChannelPlan(SLOTS, 0, 3, 0, Table(Schedule(domain))), Thresholds(0, 0, 0, -70),
             Extension(3, 3, 3, 3), 4, 0, 0, 0, false)
  }

  /** The schedule holds allowed social channels only, and each of them. */
  lemma ScheduleIsSocial(domain: set<nat>)
    requires Pick(SOCIAL, domain) != []
    ensures forall i :: 0 <= i < SLOTS ==> Schedule(domain)[i] in SOCIAL && NumberAllowed(Schedule(domain)[i], domain)
    ensures forall n :: n in SOCIAL && NumberAllowed(n, domain) ==> n in Schedule(domain)
  {
    var picked := Pick(SOCIAL, domain);
    PickMeans(SOCIAL, domain);
    forall n | n in SOCIAL && NumberAllowed(n, domain)
      ensures n in Schedule(domain)
    {
      var k :| 0 <= k < |picked| && picked[k] == n;
      assert Schedule(domain)[k] == n;
    }
  }

  lemma OpenedIsValid(mac: Address, domain: set<nat>)
    requires Pick(SOCIAL, domain) != []
    ensures Valid(Opened(mac, domain), mac, domain)
  {
    ScheduleIsSocial(domain);
    assert Opened(mac, domain).channels.table[0].number != 0;
  }

  /** Filters channel numbers into the front of the plan. */
  method PickInto(plan: array<nat>, numbers: seq<nat>, domain: set<nat>) returns (count: nat)
    requires |numbers| <= plan.Length
    modifies plan
    ensures count <= |numbers| && plan[..count] == Pick(numbers, domain)
  {
    count := 0;
    for i := 0 to |numbers|
      invariant count <= i && plan[..count] + Pick(numbers[i..], domain) == Pick(numbers, domain)
    {
      ghost var was := plan[..count];
      assert numbers[i..][0] == numbers[i] && numbers[i..][1..] == numbers[i + 1..];
      if NumberAllowed(numbers[i], domain) {
        plan[count] := numbers[i];
        assert plan[..count + 1] == was + [numbers[i]];
        assert was + ([numbers[i]] + Pick(numbers[i + 1..], domain)) ==
          plan[..count + 1] + Pick(numbers[i + 1..], domain);
        count := count + 1;
      }
    }
  }

  /** Repeats the front of the plan to its end. */
  method Repeat(plan: array<nat>, count: nat)
    requires plan.Length == SLOTS && 0 < count <= SLOTS
    modifies plan
    ensures plan[..] == seq(SLOTS, i requires 0 <= i < SLOTS => old(plan[..count])[i % count])
  {
    for i := count to SLOTS
      invariant plan[..count] == old(plan[..count])
      invariant forall k :: 0 <= k < i ==> plan[k] == old(plan[..count])[k % count]
    {
      plan[i] := plan[i % count];
    }
  }

  // -------------------------------------------------------------------------
  // Requests
  // -------------------------------------------------------------------------

  /** The requests that edit the settings; `heard` is the neighbour from which the wanted
      root was heard last, if that is not too long ago. */
  datatype Edit =
    | EditSync(params: SyncParams)
    | EditParent(parent: Parent)
    | EditEnabled(enabled: nat)
    | EditChannels(plan: ChannelPlan)
    | EditPresence(mode: nat)
    | EditElectionId(id: nat)
    | EditMetric(metric: nat)
    | EditActionMode(actionMode: nat)
    | EditExtension(extension: Extension)
    | EditThresholds(thresholds: Thresholds)
    | EditElection(distance: nat, master: Address, metric: nat, id: nat, heard: Option<Address>)
    | EditChannel(secondary: bool, number: nat)

  /** What a request asks to apply. */
  datatype Draft = Refused(status: IOReturn) | Proposed(next: Settings)

  predicate PresenceMode(mode: nat) {
    mode in {1, 2, 4, 8, 16}
  }

  function Drafted(s: Settings, e: Edit, mac: Address, domain: set<nat>): Draft
    requires |s.channels.table| == TABLE
  {
    match e
    case EditSync(params) => if SyncValid(params) then Proposed(s.(sync := params)) else Refused(Unsupported)
    case EditParent(parent) => DraftParent(s, parent)
    case EditEnabled(enabled) =>
      if enabled > 1 then Refused(BadArgument) else Proposed(s.(synchronize := enabled == 1))
    case EditChannels(plan) => DraftChannels(s, plan, domain)
    case EditPresence(mode) => if PresenceMode(mode) then Proposed(s.(presence := mode)) else Refused(Unsupported)
    case EditElectionId(id) => Proposed(s.(electionId := id))
    case EditMetric(metric) => Proposed(s.(metric := metric))
    case EditActionMode(mode) =>
      if mode == 0 || mode == 3 then Proposed(s.(actionMode := mode)) else Refused(Unsupported)
    case EditExtension(extension) =>
      if ExtensionValid(extension) then Proposed(s.(extension := extension)) else Refused(BadArgument)
    case EditThresholds(thresholds) =>
      if -127 <= thresholds.rssi <= -1 then Proposed(s.(thresholds := thresholds)) else Refused(BadArgument)
    case EditElection(distance, master, metric, id, heard) =>
      if distance > 10 || !Unicast(master) then Refused(BadArgument)
      else DraftElection(s.(metric := metric, electionId := id), distance, master, mac, heard)
    case EditChannel(secondary, number) =>
      if number > 255 || !NumberAllowed(number, domain) then Refused(BadArgument)
      else
        var index := if secondary then 1 else 0;
        Proposed(s.(channels := s.channels.(table := s.channels.table[index := Describe(number)])))
  }

  function DraftParent(s: Settings, parent: Parent): Draft {
    if parent.state > 3 || (parent.state != 0 && !Unicast(parent.master)) then Refused(BadArgument)
    else Proposed(s.(parent := parent, synchronize := if parent.state == 0 then false else s.synchronize))
  }

  function DraftChannels(s: Settings, plan: ChannelPlan, domain: set<nat>): Draft {
    if |plan.table| != TABLE || plan.length == 0 || plan.length > SLOTS || plan.encoding > 1 || plan.duplicateCount != 0
       || !PresenceMode(plan.stepCount + 1)
    then Refused(Unsupported)
    else if exists i :: 0 <= i < plan.length && plan.table[i].number != 0 && !ChannelAllowed(plan.table[i], domain)
    then Refused(BadArgument)
    else Proposed(s.(channels := plan))
  }

  function DraftElection(s: Settings, distance: nat, master: Address, mac: Address, heard: Option<Address>): Draft {
    if master == mac then
      if distance != 0 then Refused(BadArgument) else Proposed(s.(parent := Parent(1, 0, mac)))
    else
      Proposed(s.(parent := Parent(2, s.parent.flags | 0x20, if heard.Some? then heard.value else master)))
  }

  // -------------------------------------------------------------------------
  // What every request keeps
  // -------------------------------------------------------------------------

  /** A snapshot with the presence and the channel step that open installed. */
  predicate Settled(s: Settings) {
    Structural(s) && s.presence == 4 && s.channels.stepCount == 3
  }

  /** No request edits both the presence and the channel step, and a valid snapshot ties one
      to the other; so neither can change. */
  lemma PresenceCannotChange(s: Settings, e: Edit, mac: Address, domain: set<nat>)
    requires Settled(s) && Drafted(s, e, mac, domain).Proposed?
    ensures Structural(Drafted(s, e, mac, domain).next) ==> Settled(Drafted(s, e, mac, domain).next)
  {
    if e.EditElection? {
      assert Drafted(s, e, mac, domain).next.presence == s.presence;
    }
  }

  /** A snapshot that no successful open has filled in. */
  predicate Unset(s: Settings) {
    s.sync.windowLength == 0 && s.presence == 0 && |s.channels.table| == TABLE
  }

  /** Before a successful open no single request leads to a valid snapshot. */
  lemma UnsetStaysUnset(s: Settings, e: Edit, mac: Address, domain: set<nat>)
    requires Unset(s) && Drafted(s, e, mac, domain).Proposed?
    ensures !Structural(Drafted(s, e, mac, domain).next)
  {
    if e.EditElection? {
      assert Drafted(s, e, mac, domain).next.sync == s.sync;
    }
  }

  /** Of the five presence modes that a request may name only the present one is accepted. */
  lemma PresenceRequestsAccepted(s: Settings, mode: nat, mac: Address, domain: set<nat>)
    requires Valid(s, mac, domain) && Settled(s)
    ensures var d := Drafted(s, EditPresence(mode), mac, domain);
      d.Proposed? && Valid(d.next, mac, domain) <==> mode == 4
  {
  }
}
