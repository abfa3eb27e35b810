/** Peers that were left to the hardware: how they come about, and that an owner which is neither
    abandoned nor shut down meets none without having faulted. */
module PeersLeftovers {
  import opened Common
  import opened Peers
  import PP = PeersProof
  import PT = PeersTheorems

  // -------------------------------------------------------------------------
  // A leftover peer that is added again
  // -------------------------------------------------------------------------

  const BIND := Visit(Bind(true, 2, Some(2), 1), [])
  const ENABLE := Visit(Enable(true, 1), [])
  const ADD := Visit(Cache(0, 4, Query(true, Some(2), 1)), [Answer(Ok, []), Answer(Ok, [])])
  const ABANDON := Visit(Abandon, [])

  /** An empty owner that is not bound. */
  predicate Unbound(s: State) {
    && s.entries == Empties(MAXIMUM_PEERS) && s.Resting() && !s.bound && !Pending(s)
    && s.trafficPeer == ZERO_ADDRESS
  }

  /** A bound and active owner without peers. */
  predicate Active(s: State) {
    && s.entries == Empties(MAXIMUM_PEERS) && s.Resting() && s.bound && s.attached && s.active && !s.fault
    && !Pending(s)
  }

  function Call(s: State, v: Visit): State
    requires |s.entries| == MAXIMUM_PEERS
  {
    Drive(Begin(s, v.request), v.answers).state
  }

  lemma BindsAndEnables(s: State)
    requires Unbound(s)
    ensures Active(Call(Call(s, BIND), ENABLE)) && Orphans(Call(Call(s, BIND), ENABLE).log) == Orphans(s.log)
  {
    PP.BoundEvent(s.log);
    assert Call(s, BIND) == Begin(s, BIND.request).state;
  }

  lemma AddBegins(s: State)
    requires Active(s)
    ensures Begin(s, ADD.request) == Point(StartAdd(s.(busy := true), 0, 4), AddingForCache(0, 4))
  {
    PT.NoneUsed(s.entries, 0);
    assert Reserve(s.(busy := true), 4, 1) == Fresh(0);
  }

  /** The peer is added and cached. */
  lemma Adds(s: State)
    requires Active(s)
    ensures var t := Call(s, ADD);
      && t.Resting() && !Pending(t) && |t.entries| == MAXIMUM_PEERS
      && t.entries[0] == Entry(4, true, true, false, true, false)
  {
    AddBegins(s);
    var p := Begin(s, ADD.request);
    var t := FinishAdd(p.state, 0, 4, Ok);
    var u := t.Put(0, t.entries[0].(cached := true));
    assert Resume(p.state, p.pc, Ok) == Point(u, Posting(0, 4, true, EMPTY));
    Handed(p, u);
  }

  lemma Handed(p: Point, u: State)
    requires |p.state.entries| == MAXIMUM_PEERS && p.pc == AddingForCache(0, 4)
    requires Resume(p.state, p.pc, Ok) == Point(u, Posting(0, 4, true, EMPTY)) && u.busy && !u.closing && !Pending(u)
    ensures Drive(p, ADD.answers).state == u.(busy := false).(log := u.log + [Completed(4, true, true)])
  {
    var q := Point(u, Posting(0, 4, true, EMPTY));
    var r := EndTransaction(u.Log(Completed(4, true, true)), Success);
    assert ADD.answers[1..] == [Answer(Ok, [])] && [Answer(Ok, [])][1..] == [];
    ResumeAdvances(p.state, p.pc, Ok);
    ResumeAdvances(u, q.pc, Ok);
    assert Drive(p, ADD.answers) == Drive(q, [Answer(Ok, [])]);
    assert Drive(q, [Answer(Ok, [])]) == Drive(r, []) == r;
  }

  lemma Abandons(s: State)
    requires s.Resting() && !Pending(s) && |s.entries| == MAXIMUM_PEERS
    requires s.entries[0] == Entry(4, true, true, false, true, false)
    ensures Unbound(Call(s, ABANDON)) && 4 in Orphans(Call(s, ABANDON).log)
  {
    assert s.entries[0].used && s.entries[0].installed;
    assert 4 in Installed(s.entries);
    PP.HandedOffEvent(s.log, Installed(s.entries));
  }

  lemma RunOn(s: State, v: Visit, rest: seq<Visit>)
    requires |s.entries| == MAXIMUM_PEERS
    ensures |Call(s, v).entries| == MAXIMUM_PEERS && Run(s, [v] + rest) == Run(Call(s, v), rest)
  {
    assert ([v] + rest)[1..] == rest;
  }

  const LEFTOVER := [BIND] + ([ENABLE] + ([ADD] + ([ABANDON] + ([BIND] + ([ENABLE] + [])))))

  /** An owner that was abandoned and bound again can add a peer that the hardware still holds;
      undoing that add takes the peer from the hardware. */
  lemma LeftoverPeerMayBeAdded()
    ensures var s := Run(START, LEFTOVER);
      4 in Orphans(s.log) && Begin(s, Cache(0, 4, Query(true, Some(2), 1))).pc.AddingForCache?
  {
    var bound := Call(START, BIND);
    var active := Call(bound, ENABLE);
    BindsAndEnables(START);
    var added := Call(active, ADD);
    Adds(active);
    var abandoned := Call(added, ABANDON);
    Abandons(added);
    BindsAndEnables(abandoned);
    AddBegins(Call(Call(abandoned, BIND), ENABLE));
    RunOn(START, BIND, LEFTOVER[1..]);
    RunOn(bound, ENABLE, LEFTOVER[2..]);
    RunOn(active, ADD, LEFTOVER[3..]);
    RunOn(added, ABANDON, LEFTOVER[4..]);
    RunOn(abandoned, BIND, LEFTOVER[5..]);
    RunOn(Call(abandoned, BIND), ENABLE, []);
  }

  // -------------------------------------------------------------------------
  // What no answer and no ordinary request does
  // -------------------------------------------------------------------------

  /** Nothing was left to the hardware, or a failure is on record. */
  predicate Spotless(log: seq<Event>) {
    Orphans(log) == {} || Faulted(log)
  }

  /** Neither an abandonment nor a shutdown is pending. */
  predicate Plain(s: State) {
    !s.abandonPending && !s.shutdownPending
  }

  predicate Unbinds(pc: Pc) {
    pc.Clearing? && pc.unbind
  }

  predicate Steadfast(p: Point) {
    Plain(p.state) && !Unbinds(p.pc)
  }

  /** From `s` to `q` no authorization and no binding is gained, nothing is left to the hardware
      without a failure unless the binding ends, and the binding of a steadfast owner does not
      end. */
  predicate Quiets(s: State, unbind: bool, q: Point) {
    && (q.state.active ==> s.active)
    && (q.state.bound ==> s.bound && (Spotless(s.log) ==> Spotless(q.state.log)))
    && (Plain(s) && !unbind ==> Steadfast(q) && q.state.bound == s.bound)
  }

  lemma BeganStays(s: State, a: Address, add: bool)
    ensures Spotless(s.Log(Began(a, add)).log) == Spotless(s.log)
  {
    PP.BeganEvent(s.log, Began(a, add));
  }

  lemma QuietStays(s: State, e: Event)
    requires PP.Quiet(e)
    ensures Spotless(s.Log(e).log) == Spotless(s.log)
  {
    PP.QuietEvent(s.log, e);
  }

  lemma AnswerStays(log: seq<Event>, a: Address, add: bool, result: PeerResult)
    ensures Spotless(log) ==> Spotless(log + [Ended(a, add, result)])
    ensures !add && result != Ok ==> Faulted(log + [Ended(a, add, result)])
  {
    PP.EndedEvent(log, Ended(a, add, result));
    if Orphans(log) == {} {
      assert Orphans(log) - {a} == {};
    }
  }

  /** The end of `clear`. */
  lemma ClearEndQuiets(s: State, unbind: bool, failure: IOReturn, reply: Option<IOReturn>)
    ensures Quiets(s, unbind, ClearEnd(s, unbind, failure, reply))
  {
  }

  lemma ClearAtQuiets(s: State, j: nat, unbind: bool, failure: IOReturn, reply: Option<IOReturn>)
    requires |s.entries| == MAXIMUM_PEERS && j <= MAXIMUM_PEERS
    ensures Quiets(s, unbind, ClearAt(s, j, unbind, failure, reply))
  {
    if j == MAXIMUM_PEERS {
      ClearEndQuiets(s, unbind, failure, reply);
    } else {
      BeganStays(s, s.entries[j].address, false);
    }
  }

  lemma ClearQuiets(s: State, i: nat, unbind: bool, failure: IOReturn, reply: Option<IOReturn>)
    requires |s.entries| == MAXIMUM_PEERS && i <= MAXIMUM_PEERS
    ensures Quiets(s, unbind, ClearFrom(s, i, unbind, failure, reply))
  {
    var j := NextInstalled(s.entries, i);
    var t := s.(entries := Swept(s.entries, i, j));
    ClearAtQuiets(t, j, unbind, failure, reply);
    assert ClearFrom(s, i, unbind, failure, reply) == ClearAt(t, j, unbind, failure, reply);
  }

  lemma EndQuiets(s: State, result: IOReturn)
    requires |s.entries| == MAXIMUM_PEERS
    ensures Quiets(s, false, EndTransaction(s, result))
  {
    var t := s.(busy := false);
    if t.abandonPending {
      QuietStays(t.(active := false, abandonPending := true), Deferred(Forget));
    } else {
      ClearQuiets(t.(closing := true, active := false), 0, true, Success, Some(result));
      ClearQuiets(t.(closing := true, active := false), 0, false, Success, Some(result));
    }
  }

  lemma MovedQuiets(s: State)
    requires |s.entries| == MAXIMUM_PEERS
    ensures Quiets(s, false, TrafficMoved(s))
  {
    EndQuiets(s, if s.active && !s.shutdownPending then Success else NotReady);
  }

  lemma RemovalQuiets(s: State, i: nat)
    requires |s.entries| == MAXIMUM_PEERS && i < MAXIMUM_PEERS
    ensures var t := StartRemove(s, i);
      t.active == s.active && t.bound == s.bound && Plain(t) == Plain(s) && Spotless(t.log) == Spotless(s.log)
  {
    BeganStays(s, s.entries[i].address, false);
  }

  lemma ChosenQuiets(s: State, next: Option<nat>, a: Address)
    requires |s.entries| == MAXIMUM_PEERS
    ensures Quiets(s, false, TrafficChosen(s, next, a))
  {
    var was := Find(s.entries, s.trafficPeer);
    var t := s.(trafficPeer := a);
    if was.None? || was == next {
      MovedQuiets(t);
    } else {
      var u := t.Put(was.value, t.entries[was.value].(traffic := false));
      MovedQuiets(u);
      RemovalQuiets(u, was.value);
    }
  }

  lemma InstalledQuiets(s: State, i: nat, a: Address, previous: Entry)
    requires |s.entries| == MAXIMUM_PEERS && i < MAXIMUM_PEERS
    ensures Quiets(s, false, CacheInstalled(s, i, a, previous)) && Quiets(s, false, CacheRemoved(s, a))
  {
    EndQuiets(s, NotReady);
  }

  lemma TrafficInstalledQuiets(s: State, i: nat, a: Address)
    requires |s.entries| == MAXIMUM_PEERS && i < MAXIMUM_PEERS
    ensures Quiets(s, false, TrafficInstalled(s, i, a))
  {
    EndQuiets(s, NotReady);
    ChosenQuiets(s.Put(i, s.entries[i].(traffic := true)), Some(i), a);
  }

  lemma AddQuiets(s: State, i: nat, a: Address)
    requires |s.entries| == MAXIMUM_PEERS && i < MAXIMUM_PEERS
    ensures var t := StartAdd(s, i, a);
      t.active == s.active && t.bound == s.bound && Plain(t) == Plain(s) && Spotless(t.log) == Spotless(s.log)
  {
    BeganStays(s.Put(i, s.entries[i].(used := true, address := a)), a, true);
  }

  lemma CacheAddQuiets(s: State, a: Address, hardware: nat)
    requires |s.entries| == MAXIMUM_PEERS
    ensures Quiets(s, false, CacheAdd(s, a, hardware))
  {
    match Reserve(s, a, hardware)
    case Refused(result) => EndQuiets(s, result);
    case Held(i) => InstalledQuiets(s, i, a, s.entries[i]);
    case Fresh(i) => AddQuiets(s, i, a);
  }

  lemma CacheRemoveQuiets(s: State, a: Address)
    requires |s.entries| == MAXIMUM_PEERS
    ensures Quiets(s, false, CacheRemove(s, a))
  {
    var i := Find(s.entries, a);
    if i.None? {
      InstalledQuiets(s, 0, a, EMPTY);
    } else {
      var t := s.Put(i.value, s.entries[i.value].(cached := false));
      InstalledQuiets(t, 0, a, EMPTY);
      RemovalQuiets(t, i.value);
    }
  }

  lemma CacheQuiets(s: State, operation: nat, a: Address, q: Query)
    requires |s.entries| == MAXIMUM_PEERS
    ensures Quiets(s, false, BeginCache(s, operation, a, q))
  {
    CacheAddQuiets(s.(busy := true), a, q.capacity);
    CacheRemoveQuiets(s.(busy := true), a);
  }

  lemma TrafficAddQuiets(s: State, a: Address, hardware: nat)
    requires |s.entries| == MAXIMUM_PEERS
    ensures Quiets(s, false, TrafficAdd(s, a, hardware))
  {
    match Reserve(s, a, hardware)
    case Refused(result) => EndQuiets(s, result);
    case Held(i) => TrafficInstalledQuiets(s, i, a);
    case Fresh(i) => AddQuiets(s, i, a);
  }

  lemma TrafficQuiets(s: State, d: Registration, q: Query)
    requires |s.entries| == MAXIMUM_PEERS
    ensures Quiets(s, false, BeginTraffic(s, d, q))
  {
    ChosenQuiets(s.(busy := true), None, ZERO_ADDRESS);
    TrafficAddQuiets(s.(busy := true), d.address, q.capacity);
  }

  lemma DisableQuiets(s: State, hardware: nat)
    requires |s.entries| == MAXIMUM_PEERS
    ensures Quiets(s, false, BeginEnable(s, false, hardware)) && !BeginEnable(s, false, hardware).state.active
  {
    var t := s.(active := false);
    QuietStays(t.(disablePending := true), Deferred(Disable));
    ClearQuiets(t.(closing := true, active := false), 0, false, Success, None);
  }

  /** Requests other than turning on, binding, shutting down and abandoning. */
  predicate Ordinary(r: Request) {
    r.Revoke? || r.Cache? || r.Traffic? || r.Ask? || (r.Enable? && !r.value)
  }

  lemma BeginQuiets(s: State, r: Request)
    requires |s.entries| == MAXIMUM_PEERS && Ordinary(r)
    ensures Quiets(s, false, Begin(s, r))
  {
    match r
    case Enable(_, hardware) => DisableQuiets(s, hardware);
    case Revoke =>
    case Cache(operation, a, q) => CacheQuiets(s, operation, a, q);
    case Traffic(d, q) => TrafficQuiets(s, d, q);
    case Ask(a) => QuietStays(s, Asked(a, Authorized(s, a)));
  }

  lemma PostedQuiets(s: State, i: nat, add: bool, previous: Entry, result: PeerResult)
    requires |s.entries| == MAXIMUM_PEERS && i < MAXIMUM_PEERS
    ensures Quiets(s, false, CachePosted(s, i, add, previous, result))
  {
    EndQuiets(s, Success);
    EndQuiets(s, NotReady);
    var t := s.Put(i, s.entries[i].(cached := previous.cached));
    EndQuiets(t, NotReady);
    RemovalQuiets(t, i);
  }

  lemma AddedQuiets(s: State, i: nat, a: Address, result: PeerResult)
    requires |s.entries| == MAXIMUM_PEERS && i < MAXIMUM_PEERS
    ensures Quiets(s, false, CacheAdded(s, i, a, result)) && Quiets(s, false, TrafficAdded(s, i, a, result))
  {
    InstalledQuiets(s, i, a, EMPTY);
    TrafficInstalledQuiets(s, i, a);
    EndQuiets(s, s.lastError);
  }

  lemma RemovedQuiets(s: State, i: nat, a: Address, result: PeerResult)
    requires |s.entries| == MAXIMUM_PEERS && i < MAXIMUM_PEERS
    ensures Quiets(s, false, CacheCleared(s, i, a, result)) && Quiets(s, false, TrafficCleared(s, result))
  {
    InstalledQuiets(s, i, a, EMPTY);
    MovedQuiets(s);
    EndQuiets(s, s.lastError);
  }

  /** What an answer notes keeps everything that matters here. */
  predicate Bears(s: State, t: State) {
    t.active == s.active && t.bound == s.bound && Plain(t) == Plain(s) && (Spotless(s.log) ==> Spotless(t.log))
  }

  lemma QuietsAfter(s: State, t: State, unbind: bool, q: Point)
    requires Bears(s, t) && Quiets(t, unbind, q)
    ensures Quiets(s, unbind, q)
  {
  }

  lemma FinishAddBears(s: State, i: nat, a: Address, result: PeerResult)
    requires |s.entries| == MAXIMUM_PEERS && i < MAXIMUM_PEERS
    ensures Bears(s, FinishAdd(s, i, a, result))
  {
    AnswerStays(s.log, a, true, result);
  }

  lemma AddingQuiets(s: State, i: nat, a: Address, result: PeerResult)
    requires |s.entries| == MAXIMUM_PEERS && i < MAXIMUM_PEERS
    ensures Quiets(s, false, Resume(s, AddingForCache(i, a), result))
    ensures Quiets(s, false, Resume(s, AddingForTraffic(i, a), result))
  {
    var t := FinishAdd(s, i, a, result);
    FinishAddBears(s, i, a, result);
    AddedQuiets(t, i, a, result);
    QuietsAfter(s, t, false, CacheAdded(t, i, a, result));
    QuietsAfter(s, t, false, TrafficAdded(t, i, a, result));
  }

  lemma FinishRemoveBears(s: State, i: nat, result: PeerResult)
    requires |s.entries| == MAXIMUM_PEERS && i < MAXIMUM_PEERS
    ensures Bears(s, FinishRemove(s, i, result))
  {
    AnswerStays(s.log, s.entries[i].address, false, result);
  }

  lemma RemovingQuiets(s: State, i: nat, a: Address, result: PeerResult)
    requires |s.entries| == MAXIMUM_PEERS && i < MAXIMUM_PEERS
    ensures Quiets(s, false, Resume(s, RemovingForCache(i, a), result))
    ensures Quiets(s, false, Resume(s, RemovingForTraffic(i), result))
    ensures Quiets(s, false, Resume(s, Unwinding(i), result))
  {
    var t := FinishRemove(s, i, result);
    FinishRemoveBears(s, i, result);
    RemovedQuiets(t, i, a, result);
    EndQuiets(t, NotReady);
    QuietsAfter(s, t, false, CacheCleared(t, i, a, result));
    QuietsAfter(s, t, false, TrafficCleared(t, result));
    QuietsAfter(s, t, false, EndTransaction(t, NotReady));
  }

  /** A peer that cannot be removed is left to the hardware, and the failure is on record. */
  lemma ClearedBears(s: State, i: nat, result: PeerResult)
    requires |s.entries| == MAXIMUM_PEERS && i < MAXIMUM_PEERS
    ensures Bears(s, FinishClear(s, i, result))
  {
    var t := FinishClear(s, i, result);
    ClearedFrame(s, i, result);
    ClearedLog(s.log, s.entries[i].address, result);
    assert Spotless(s.log) ==> Spotless(t.log);
  }

  /** The log after a removal inside `clear` has been answered. */
  function Cleared(log: seq<Event>, a: Address, result: PeerResult): seq<Event> {
    var more := log + [Ended(a, false, result)];
    if result == Ok then more else more + [HandedOff({a})]
  }

  lemma ClearedFrame(s: State, i: nat, result: PeerResult)
    requires |s.entries| == MAXIMUM_PEERS && i < MAXIMUM_PEERS
    ensures var t := FinishClear(s, i, result);
      t == s.(entries := t.entries, log := Cleared(s.log, s.entries[i].address, result))
  {
    var t := s.Put(i, EMPTY).Log(Ended(s.entries[i].address, false, result));
    if result == Ok {
      assert FinishClear(s, i, result) == t;
    } else {
      assert FinishClear(s, i, result) == t.Log(HandedOff({s.entries[i].address}));
    }
  }

  lemma ClearedLog(log: seq<Event>, a: Address, result: PeerResult)
    ensures Spotless(log) ==> Spotless(Cleared(log, a, result))
  {
    AnswerStays(log, a, false, result);
    PP.HandedOffEvent(log + [Ended(a, false, result)], {a});
  }

  lemma SweepQuiets(s: State, pc: Pc, result: PeerResult)
    requires |s.entries| == MAXIMUM_PEERS && pc.Clearing? && pc.index < MAXIMUM_PEERS
    ensures Quiets(s, pc.unbind, Resume(s, pc, result))
  {
    var t := FinishClear(s, pc.index, result);
    var failure := if result == Ok then pc.failure else Status(result);
    ClearedBears(s, pc.index, result);
    ClearQuiets(t, pc.index + 1, pc.unbind, failure, pc.reply);
    QuietsAfter(s, t, pc.unbind, ClearFrom(t, pc.index + 1, pc.unbind, failure, pc.reply));
  }

  lemma PostingQuiets(s: State, pc: Pc, result: PeerResult)
    requires |s.entries| == MAXIMUM_PEERS && pc.Posting? && pc.index < MAXIMUM_PEERS
    ensures Quiets(s, false, Resume(s, pc, result))
  {
    var e := Completed(pc.address, pc.add, result == Ok);
    QuietStays(s, e);
    PostedQuiets(s.Log(e), pc.index, pc.add, pc.previous, result);
    QuietsAfter(s, s.Log(e), false, CachePosted(s.Log(e), pc.index, pc.add, pc.previous, result));
  }

  lemma ResumeQuiets(s: State, pc: Pc, result: PeerResult)
    requires |s.entries| == MAXIMUM_PEERS && !pc.Done? && InTable(pc)
    ensures Quiets(s, Unbinds(pc), Resume(s, pc, result))
  {
    if pc.AddingForCache? || pc.AddingForTraffic? {
      AddingQuiets(s, pc.index, pc.address, result);
    } else if pc.RemovingForCache? {
      RemovingQuiets(s, pc.index, pc.address, result);
    } else if pc.RemovingForTraffic? || pc.Unwinding? {
      RemovingQuiets(s, pc.index, ZERO_ADDRESS, result);
    } else if pc.Posting? {
      PostingQuiets(s, pc, result);
    } else {
      SweepQuiets(s, pc, result);
    }
  }

  lemma {:induction false} DriveQuiets(p: Point)
    requires |p.state.entries| == MAXIMUM_PEERS && InTable(p.pc)
    ensures Quiets(p.state, Unbinds(p.pc), Drive(p, []))
    decreases Rank(p.pc)
  {
    if !p.pc.Done? {
      var q := Resume(p.state, p.pc, Ok);
      ResumeAdvances(p.state, p.pc, Ok);
      ResumeQuiets(p.state, p.pc, Ok);
      DriveQuiets(q);
      assert Drive(p, []) == Drive(q, []);
    }
  }
}
