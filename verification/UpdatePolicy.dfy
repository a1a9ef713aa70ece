/** When a side starts an update by itself (src/encryption_provider/update_policy.rs). */
module UpdatePolicies {
  import opened Wrappers
  import opened Words

  /** Times are plain numbers of one unit. */
  datatype TimePolicy = TimePolicy(duration: nat, lastUpdate: int)

  datatype TrafficPolicy = TrafficPolicy(threshold: nat, bytes: nat)

  datatype Policy = Policy(time: Option<TimePolicy>, traffic: Option<TrafficPolicy>)

  predicate Due(p: Policy, now: int) {
    || (p.time.Some? && now >= p.time.value.lastUpdate + p.time.value.duration)
    || (p.traffic.Some? && p.traffic.value.bytes >= p.traffic.value.threshold)
  }

  function AfterReset(p: Policy, now: int): Policy {
    Policy(if p.time.Some? then Some(p.time.value.(lastUpdate := now)) else None,
           if p.traffic.Some? then Some(p.traffic.value.(bytes := 0)) else None)
  }

  function AfterCount(p: Policy, bytes: nat): Policy {
    if p.traffic.Some? then p.(traffic := Some(p.traffic.value.(bytes := (p.traffic.value.bytes + bytes) % U64)))
    else p
  }

  class UpdatePolicy {
    var timeBased: Option<TimePolicy>
    var trafficBased: Option<TrafficPolicy>

    function View(): Policy
      reads this
    {
      Policy(timeBased, trafficBased)
    }

    constructor (time: Option<TimePolicy>, traffic: Option<TrafficPolicy>)
      ensures View() == Policy(time, traffic)
    {
      timeBased, trafficBased := time, traffic;
    }

    method Reset(now: int)
      modifies this
      ensures View() == AfterReset(old(View()), now)
    {
      if timeBased.Some? {
        timeBased := Some(timeBased.value.(lastUpdate := now));
      }
      if trafficBased.Some? {
        trafficBased := Some(trafficBased.value.(bytes := 0));
      }
    }

    method IncrementBytesTransferred(bytes: nat)
      modifies this
      ensures View() == AfterCount(old(View()), bytes)
    {
      if trafficBased.Some? {
        trafficBased := Some(trafficBased.value.(bytes := (trafficBased.value.bytes + bytes) % U64));
      }
    }
  }

  // ----- the counter over a run of calls -----

  /** One call of `send_bytes`: whether it completed an update, whether it failed before sending, and
      how many bytes it sent otherwise. */
  datatype Call = Call(now: int, completed: bool, refused: bool, size: nat)

  function AfterCall(p: Policy, c: Call): Policy {
    var p' := if c.completed then AfterReset(p, c.now) else p;
    if c.refused then p' else AfterCount(p', c.size)
  }

  function AfterCalls(p: Policy, calls: seq<Call>): Policy
    decreases |calls|
  {
    if calls == [] then p else AfterCalls(AfterCall(p, calls[0]), calls[1..])
  }

  /** Total size of the messages that a stretch of calls got as far as sending. */
  function BytesSent(calls: seq<Call>): nat {
    if calls == [] then 0
    else (if calls[0].refused then 0 else calls[0].size) + BytesSent(calls[1..])
  }

  lemma {:induction false} CounterAddsUp(p: Policy, calls: seq<Call>)
    requires p.traffic.Some? && p.traffic.value.bytes < U64
    requires forall i :: 0 <= i < |calls| ==> !calls[i].completed
    ensures AfterCalls(p, calls).traffic.Some?
    ensures AfterCalls(p, calls).traffic.value.bytes == (p.traffic.value.bytes + BytesSent(calls)) % U64
    decreases |calls|
  {
    if calls != [] {
      var p' := AfterCall(p, calls[0]);
      var size := if calls[0].refused then 0 else calls[0].size;
      assert p'.traffic.value.bytes == (p.traffic.value.bytes + size) % U64;
      CounterAddsUp(p', calls[1..]);
      ModAdd(p.traffic.value.bytes + size, BytesSent(calls[1..]));
    }
  }

  lemma {:induction false} AfterCallsSplit(p: Policy, before: seq<Call>, after: seq<Call>)
    ensures AfterCalls(p, before + after) == AfterCalls(AfterCalls(p, before), after)
    decreases |before|
  {
    if before == [] {
      assert before + after == after;
    } else {
      assert (before + after)[1..] == before[1..] + after;
      AfterCallsSplit(AfterCall(p, before[0]), before[1..], after);
    }
  }

  lemma {:induction false} TrafficKept(p: Policy, calls: seq<Call>)
    ensures AfterCalls(p, calls).traffic.Some? <==> p.traffic.Some?
    decreases |calls|
  {
    if calls != [] {
      TrafficKept(AfterCall(p, calls[0]), calls[1..]);
    }
  }

  /** The position of the last call that completed an update. */
  function LastUpdate(calls: seq<Call>): (k: Option<nat>)
    ensures k.None? ==> forall i :: 0 <= i < |calls| ==> !calls[i].completed
    ensures k.Some? ==> k.value < |calls| && calls[k.value].completed
                        && forall i :: k.value < i < |calls| ==> !calls[i].completed
  {
    if calls == [] then None
    else if calls[|calls| - 1].completed then Some(|calls| - 1)
    else LastUpdate(calls[..|calls| - 1])
  }

  /** A call that completes an update goes on to send its message. */
  predicate UpdatesSend(calls: seq<Call>) {
    forall i :: 0 <= i < |calls| && calls[i].completed ==> !calls[i].refused
  }

  /** From an update on, the counter is the number of bytes sent since, that call's message included. */
  lemma CounterFromUpdate(p: Policy, before: seq<Call>, update: Call, after: seq<Call>)
    requires p.traffic.Some? && update.completed && !update.refused
    requires forall i :: 0 <= i < |after| ==> !after[i].completed
    ensures
      var q := AfterCalls(p, before + ([update] + after));
      q.traffic.Some? && q.traffic.value.bytes == BytesSent([update] + after) % U64
  {
    AfterCallsSplit(p, before, [update] + after);
    TrafficKept(p, before);
    var p1 := AfterCalls(p, before);
    var p2 := AfterReset(p1, update.now);
    var plain := update.(completed := false);
    assert AfterCall(p1, update) == AfterCall(p2, plain);
    assert ([update] + after)[1..] == after && ([plain] + after)[1..] == after;
    CounterAddsUp(p2, [plain] + after);
    assert AfterCalls(p1, [update] + after) == AfterCalls(p2, [plain] + after);
  }

  /** Over any run of calls: the counter is the number of bytes sent since the last completed update, or
      since the start if there was none, where it adds to what the counter was; modulo 2^64. */
  lemma CounterSinceLastUpdate(p: Policy, calls: seq<Call>)
    requires p.traffic.Some? && p.traffic.value.bytes < U64 && UpdatesSend(calls)
    ensures AfterCalls(p, calls).traffic.Some?
    ensures
      var counter := AfterCalls(p, calls).traffic.value.bytes;
      match LastUpdate(calls)
      case None => counter == (p.traffic.value.bytes + BytesSent(calls)) % U64
      case Some(k) => counter == BytesSent(calls[k..]) % U64
  {
    match LastUpdate(calls)
    case None => CounterAddsUp(p, calls);
    case Some(k) =>
      assert calls[k..] == [calls[k]] + calls[k + 1..];
      assert calls == calls[..k] + calls[k..];
      CounterFromUpdate(p, calls[..k], calls[k], calls[k + 1..]);
  }
}
