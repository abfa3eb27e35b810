/** The runtime uses the backend in an orderly way: the calls on the radio that a run of the
    runtime makes, in the order it makes them, satisfy the rules that the backend's laws ask for. */
module BackendUse {
  import opened Common
  import B = Backend
  import BR = BackendRadio
  import R = Runtime
  import RP = RuntimeProof
  import RT = RuntimeTraffic
  import RuntimeTheorems

  /** A call on the radio, and whether another call was in flight. */
  datatype Made = Made(call: B.Call, nested: bool)

  // -------------------------------------------------------------------------
  // Calls as either log tells them
  // -------------------------------------------------------------------------

  /** The calls on the radio that the backend logged. */
  function Received(log: seq<B.Event>): seq<Made> {
    if log == [] then []
    else
      var rest, e := Received(log[..|log| - 1]), log[|log| - 1];
      if e.Called? then rest + [Made(e.call, e.nested)] else rest
  }

  /** The call on the radio that a call of the runtime on its backend is, if it is one. */
  function AsCall(e: R.Event): Option<B.Call> {
    match e
    case Open(_) => Some(B.Opening)
    case Activate(value, _) => Some(if value then B.Enabling else B.Disabling)
    case RevokePeers(_) => Some(B.Revoking)
    case Close(_) => Some(B.Closing)
    case Apply(purpose, _) => AsWork(purpose)
    case _ => None
  }

  function AsWork(w: R.Work): Option<B.Call> {
    match w
    case Addressing => Some(B.Working)
    case Requesting => Some(B.Working)
    case Carrying(what) =>
      if what.Timer? then Some(B.Firing) else if what.Transmit? then Some(B.Working) else None
  }

  /** Another runtime call than the one that makes this backend call is in flight. */
  predicate Deeper(e: R.Event)
    requires AsCall(e).Some?
  {
    if e.Close? then e.calls > 0 else e.calls > 1
  }

  /** The calls on the radio that the runtime made. */
  function Issued(log: seq<R.Event>): seq<Made> {
    if log == [] then []
    else
      var rest, e := Issued(log[..|log| - 1]), log[|log| - 1];
      if AsCall(e).Some? then rest + [Made(AsCall(e).value, Deeper(e))] else rest
  }

  /** The backend received what the runtime issued; a call finds another one at work in the
      backend only if the runtime has another one in flight. */
  predicate Matches(received: seq<Made>, issued: seq<Made>) {
    && |received| == |issued|
    && forall i :: 0 <= i < |issued| ==>
         received[i].call == issued[i].call && (received[i].nested ==> issued[i].nested)
  }

  /** The work loop delivers the timer outside any other call. */
  predicate TimerAlone(log: seq<R.Event>) {
    forall k :: 0 <= k < |log| && log[k].Apply? && log[k].purpose == R.Carrying(R.Timer) ==> log[k].calls == 1
  }

  // -------------------------------------------------------------------------
  // Sequences of calls in order
  // -------------------------------------------------------------------------

  predicate Follows(m: Made, next: Made) {
    !m.call.Closing? && (m.call.Revoking? ==> next.call.Disabling? || next.call.Closing?)
  }

  predicate Alone(m: Made) {
    m.call.Closing? || m.call.Firing? ==> !m.nested
  }

  predicate InSequence(calls: seq<Made>) {
    && (forall i :: 0 <= i < |calls| ==> Alone(calls[i]))
    && (forall i :: 0 < i < |calls| ==> Follows(calls[i - 1], calls[i]))
  }

  lemma MatchedIsInSequence(received: seq<Made>, issued: seq<Made>)
    requires Matches(received, issued) && InSequence(issued)
    ensures InSequence(received)
  {
    forall i | 0 < i < |received|
      ensures Follows(received[i - 1], received[i])
    {
      assert Follows(issued[i - 1], issued[i]);
      assert received[i - 1].call == issued[i - 1].call && received[i].call == issued[i].call;
    }
  }

  predicate EndsWith(calls: seq<Made>, call: B.Call) {
    calls != [] && calls[|calls| - 1].call == call
  }

  /** Calls in sequence make an orderly log. */
  lemma {:induction false} SequenceIsOrderly(log: seq<B.Event>)
    requires InSequence(Received(log))
    ensures var b := B.ConductOf(log);
      && b.orderly && b.owing == EndsWith(Received(log), B.Revoking)
      && (b.closing ==> EndsWith(Received(log), B.Closing))
  {
    if log != [] {
      var before, e := log[..|log| - 1], log[|log| - 1];
      var calls := Received(before);
      if e.Called? {
        assert Received(log)[..|calls|] == calls;
        assert Alone(Received(log)[|calls|]);
        PrefixInSequence(Received(log), |calls|);
        SequenceIsOrderly(before);
        if calls != [] {
          assert Follows(Received(log)[|calls| - 1], Received(log)[|calls|]);
        }
      } else {
        SequenceIsOrderly(before);
      }
    }
  }

  lemma PrefixInSequence(calls: seq<Made>, n: nat)
    requires InSequence(calls) && n <= |calls|
    ensures InSequence(calls[..n])
  {
    forall i | 0 < i < n
      ensures Follows(calls[..n][i - 1], calls[..n][i])
    {
      assert Follows(calls[i - 1], calls[i]);
    }
  }

  // -------------------------------------------------------------------------
  // The runtime's calls are in sequence
  // -------------------------------------------------------------------------

  /** What the laws of the runtime say about its log. */
  predicate Ruled(log: seq<R.Event>) {
    && RT.Tidy(log) && TimerAlone(log)
    && forall k :: 0 <= k < |log| && log[k].Close? ==> k == |log| - 1 && log[k].calls == 0
  }

  lemma RuledBefore(log: seq<R.Event>)
    requires Ruled(log) && log != []
    ensures Ruled(log[..|log| - 1])
    ensures forall k :: 0 <= k < |log| - 1 ==> !log[k].Close?
  {
    var before := log[..|log| - 1];
    forall k | 0 <= k < |before|
      ensures before[..k] == log[..k]
    {
    }
  }

  lemma {:induction false} NothingClosed(log: seq<R.Event>)
    requires forall k :: 0 <= k < |log| ==> !log[k].Close?
    ensures !EndsWith(Issued(log), B.Closing)
  {
    if log != [] {
      NothingClosed(log[..|log| - 1]);
    }
  }

  /** If the last call on the radio was a revocation, the call after it is still due. */
  lemma {:induction false} RevokedIsOwing(log: seq<R.Event>)
    requires Ruled(log) && EndsWith(Issued(log), B.Revoking)
    ensures RT.Owing(log)
  {
    var last := |log| - 1;
    if AsCall(log[last]).None? {
      RuledBefore(log);
      RevokedIsOwing(log[..last]);
    }
  }

  lemma {:induction false} IssuedInSequence(log: seq<R.Event>)
    requires Ruled(log)
    ensures InSequence(Issued(log))
  {
    if log != [] {
      var before, e := log[..|log| - 1], log[|log| - 1];
      RuledBefore(log);
      IssuedInSequence(before);
      if AsCall(e).Some? {
        NothingClosed(before);
        if EndsWith(Issued(before), B.Revoking) {
          RevokedIsOwing(before);
        }
        Extended(Issued(before), Made(AsCall(e).value, Deeper(e)));
      }
    }
  }

  lemma Extended(calls: seq<Made>, m: Made)
    requires InSequence(calls) && Alone(m) && (calls != [] ==> Follows(calls[|calls| - 1], m))
    ensures InSequence(calls + [m])
  {
    var more := calls + [m];
    forall i | 0 < i < |more|
      ensures Follows(more[i - 1], more[i])
    {
      if i < |calls| {
        assert Follows(calls[i - 1], calls[i]);
      }
    }
  }

  /** A backend that receives the calls which a run of the runtime makes has an orderly log,
      provided the timer is delivered outside any other call. */
  lemma RuntimeIsOrderly(requests: seq<R.Request>, domain: set<nat>, ops: seq<B.Op>)
    requires var log := R.Run(R.START, requests).log;
      TimerAlone(log) && Matches(Received(B.Run(B.Start(domain), ops).log), Issued(log))
    ensures BR.Orderly(B.Run(B.Start(domain), ops))
  {
    var log := R.Run(R.START, requests).log;
    RT.TrafficNeedsAnEnabledRuntime(requests, ZERO_ADDRESS);
    RuntimeTheorems.BackendClosesExactlyOnce(requests);
    IssuedInSequence(log);
    MatchedIsInSequence(Received(B.Run(B.Start(domain), ops).log), Issued(log));
    SequenceIsOrderly(B.Run(B.Start(domain), ops).log);
  }
}
