/** The per-actor rate limiter: token buckets keyed by actor and action class. Time is an exact
    real number of seconds. */
module Guardrails {
  import opened Options
  import ChannelNames

  type Actor = nat

  datatype Action =
    | CreateChannel | DeleteChannel | KickMember | BanMember
    | CreateRole | UpdateRole | DeleteRole | AssignRole | UpdateServer

  /** The two budgets in use: a burst of 3 refilled by one token every 20 seconds, and a burst of
      5 refilled by one every 5 seconds. */
  datatype Budget = Tight | Loose
  {
    function Capacity(): real { if Tight? then 3.0 else 5.0 }

    /** The tokens refilled in so many seconds. */
    function Refill(seconds: real): real { if Tight? then seconds / 20.0 else seconds / 5.0 }

    /** The seconds that refill so many tokens. */
    function Time(tokens: real): real { if Tight? then tokens * 20.0 else tokens * 5.0 }
  }

  function BudgetOf(action: Action): Budget
  {
    match action
    case DeleteChannel | KickMember | BanMember | DeleteRole => Tight
    case UpdateRole | AssignRole | UpdateServer => Loose
    case CreateChannel | CreateRole => Loose
  }

  datatype Decision =
    | Allow
    | AllowFlagged(reason: ChannelNames.Reason)
    | Throttle(retryAfter: nat)
  {
    predicate Allowed() { Allow? || AllowFlagged? }
  }

  // ----- one bucket, as a value -----

  datatype Bucket = Bucket(tokens: real, budget: Budget, last: real)
  {
    predicate Valid() { 0.0 <= tokens <= budget.Capacity() }

    /** The tokens in the bucket at time `now`, after refilling. */
    function Level(now: real): real
    {
      var elapsed := if now > last then now - last else 0.0;
      var full := tokens + budget.Refill(elapsed);
      if full < budget.Capacity() then full else budget.Capacity()
    }

    function After(now: real): Bucket
    {
      Bucket(if Level(now) >= 1.0 then Level(now) - 1.0 else Level(now), budget, now)
    }

    /** None when a token is spent, otherwise the seconds to wait. */
    function Outcome(now: real): Option<nat>
      requires Valid()
    {
      if Level(now) >= 1.0 then None
      else
        var secs := Ceiling(budget.Time(1.0 - Level(now)));
        Some(if secs > 1 then secs else 1)
    }
  }

  function Ceiling(x: real): (n: int)
    ensures n as real - 1.0 < x <= n as real
  {
    -(-x).Floor
  }

  function FullBucket(budget: Budget, now: real): Bucket { Bucket(budget.Capacity(), budget, now) }

  lemma LevelBounds(b: Bucket, now: real)
    requires b.Valid()
    ensures 0.0 <= b.Level(now) <= b.budget.Capacity()
    ensures now >= b.last ==> b.Level(now) <= b.tokens + b.budget.Refill(now - b.last)
    ensures b.After(now).Valid()
  {
  }

  // ----- many calls on one bucket -----

  predicate Sorted(times: seq<real>)
  {
    forall i, j :: 0 <= i <= j < |times| ==> times[i] <= times[j]
  }

  /** The outcomes of calls at `times` on a bucket, made full by the first call if absent. */
  function Outcomes(budget: Budget, b: Option<Bucket>, times: seq<real>): (r: seq<Option<nat>>)
    requires b.Some? ==> b.value.Valid()
    ensures |r| == |times|
    decreases |times|
  {
    if times == [] then []
    else
      var bucket := if b.Some? then b.value else FullBucket(budget, times[0]);
      LevelBounds(bucket, times[0]);
      [bucket.Outcome(times[0])] + Outcomes(budget, Some(bucket.After(times[0])), times[1..])
  }

  lemma OutcomesHead(budget: Budget, b: Option<Bucket>, now: real, rest: seq<real>)
    requires b.Some? ==> b.value.Valid()
    ensures
      var bucket := if b.Some? then b.value else FullBucket(budget, now);
      && bucket.Valid() && bucket.After(now).Valid()
      && Outcomes(budget, b, [now] + rest) ==
        [bucket.Outcome(now)] + Outcomes(budget, Some(bucket.After(now)), rest)
  {
    LevelBounds(if b.Some? then b.value else FullBucket(budget, now), now);
    assert ([now] + rest)[1..] == rest;
  }

  function CountAllowed(outcomes: seq<Option<nat>>): (n: nat)
    ensures n <= |outcomes|
  {
    if outcomes == [] then 0
    else (if outcomes[0].None? then 1 else 0) + CountAllowed(outcomes[1..])
  }

  lemma CountHead(outcome: Option<nat>, rest: seq<Option<nat>>)
    ensures CountAllowed([outcome] + rest) == (if outcome.None? then 1 else 0) + CountAllowed(rest)
  {
    assert ([outcome] + rest)[1..] == rest;
  }

  /** Over any sorted run of calls, no more are allowed than the level at the first of them plus
      what is refilled until the last of them. */
  lemma {:induction false} AllowedWithin(b: Bucket, times: seq<real>)
    requires b.Valid() && times != [] && Sorted(times) && b.last <= times[0]
    ensures CountAllowed(Outcomes(b.budget, Some(b), times)) as real
      <= b.Level(times[0]) + b.budget.Refill(times[|times| - 1] - times[0])
    decreases |times|
  {
    var now, rest := times[0], times[1..];
    var after := b.After(now);
    LevelBounds(b, now);
    assert times == [now] + rest;
    OutcomesHead(b.budget, Some(b), now, rest);
    CountHead(b.Outcome(now), Outcomes(b.budget, Some(after), rest));
    if rest != [] {
      AllowedWithin(after, rest);
      LevelBounds(after, rest[0]);
    }
  }

  /** When a bucket short of one token next holds one, if nothing is spent. */
  function DueAt(b: Bucket): real { b.last + b.budget.Time(1.0 - b.tokens) }

  lemma DueExactly(b: Bucket, now: real)
    requires b.Valid() && b.tokens < 1.0 && b.last <= now
    ensures b.Outcome(now).None? <==> now >= DueAt(b)
  {
  }

  /** A refused call costs nothing: the due time stays where it was. */
  lemma RefusedCostsNothing(b: Bucket, now: real)
    requires b.Valid() && b.tokens < 1.0 && b.last <= now && b.Outcome(now).Some?
    ensures b.After(now).Valid() && b.After(now).tokens < 1.0
    ensures DueAt(b.After(now)) == DueAt(b)
  {
  }

  /** A run of calls on a bucket short of one token: every call before the due time is refused,
      and the first from then on is allowed. */
  lemma {:induction false} RefusedUntilDue(b: Bucket, times: seq<real>, j: nat)
    requires b.Valid() && b.tokens < 1.0
    requires Sorted(times) && j < |times| && b.last <= times[0]
    ensures
      var outcomes := Outcomes(b.budget, Some(b), times);
      && (times[j] < DueAt(b) ==> outcomes[j].Some?)
      && (times[j] >= DueAt(b) && (forall k :: 0 <= k < j ==> outcomes[k].Some?)
          ==> outcomes[j].None?)
    decreases j
  {
    var first := times[0];
    var outcomes := Outcomes(b.budget, Some(b), times);
    DueExactly(b, first);
    assert outcomes[0] == b.Outcome(first);
    if j > 0 && outcomes[0].Some? {
      RefusedCostsNothing(b, first);
      var later := Outcomes(b.budget, Some(b.After(first)), times[1..]);
      RefusedUntilDue(b.After(first), times[1..], j - 1);
      assert forall k :: 0 <= k < j ==> later[k] == outcomes[k + 1];
    }
  }

  /** What the answered number of seconds has to do with the due time. */
  lemma AdviceRoundsUp(b: Bucket, now: real)
    requires b.Valid() && b.last <= now && b.Outcome(now).Some?
    ensures b.After(now).Valid() && b.After(now).tokens < 1.0
    ensures
      var r := b.Outcome(now).value as real;
      now + r - 1.0 < DueAt(b.After(now)) <= now + r
  {
  }

  /** After a call on one bucket is refused with advice `r`: later calls on it up to `r - 1` seconds
      on are refused, and the first one `r` seconds on or later is allowed unless an earlier one
      already was. */
  lemma {:induction false} AdviceOnBucket(budget: Budget, b: Option<Bucket>, times: seq<real>, i: nat, j: nat)
    requires b.Some? ==> b.value.Valid() && b.value.budget == budget
    requires Sorted(times) && i < j < |times|
    requires b.Some? ==> b.value.last <= times[0]
    requires Outcomes(budget, b, times)[i].Some?
    ensures
      var outcomes := Outcomes(budget, b, times);
      var r := outcomes[i].value as real;
      && (times[j] <= times[i] + r - 1.0 ==> outcomes[j].Some?)
      && (times[j] >= times[i] + r && (forall k :: i < k < j ==> outcomes[k].Some?)
          ==> outcomes[j].None?)
    decreases i
  {
    var bucket := if b.Some? then b.value else FullBucket(budget, times[0]);
    var after := bucket.After(times[0]);
    LevelBounds(bucket, times[0]);
    var outcomes := Outcomes(budget, b, times);
    var later := Outcomes(budget, Some(after), times[1..]);
    assert forall k :: 0 <= k < |later| ==> later[k] == outcomes[k + 1];
    if i > 0 {
      AdviceOnBucket(budget, Some(after), times[1..], i - 1, j - 1);
    } else {
      AdviceRoundsUp(bucket, times[0]);
      RefusedUntilDue(after, times[1..], j - 1);
    }
  }

  // ----- the limiter: one bucket per actor and action class -----

  datatype Key = Key(actor: Actor, action: Action)

  datatype Call = Call(
    key: Key, name: Option<string>, recent: seq<string>, isOwner: bool, now: real)

  type Buckets = m: map<Key, Bucket> | forall k | k in m :: m[k].Valid() && m[k].budget == BudgetOf(k.action)

  function Lookup(m: Buckets, key: Key): (b: Option<Bucket>)
    ensures b.Some? ==> b.value.Valid() && b.value.budget == BudgetOf(key.action)
  {
    if key in m then Some(m[key]) else None
  }

  /** The owner is not limited unless the policy says so. */
  predicate Limited(blockOwner: bool, call: Call) { blockOwner || !call.isOwner }

  function BucketFor(m: Buckets, call: Call): (b: Bucket)
    ensures b.Valid() && b.budget == BudgetOf(call.key.action)
  {
    if call.key in m then m[call.key] else FullBucket(BudgetOf(call.key.action), call.now)
  }

  function Throttling(blockOwner: bool, m: Buckets, call: Call): Option<nat>
  {
    if Limited(blockOwner, call) then BucketFor(m, call).Outcome(call.now) else None
  }

  function Flag(call: Call): Option<ChannelNames.Reason>
  {
    if call.key.action == CreateChannel && call.name.Some? then
      match ChannelNames.AssessName(call.name.value, call.recent)
      case Suspicious(reason) => Some(reason)
      case Fine => None
    else None
  }

  function Decide(blockOwner: bool, m: Buckets, call: Call): Decision
  {
    match (Throttling(blockOwner, m, call), Flag(call))
    case (Some(secs), _) => Throttle(secs)
    case (None, Some(reason)) => AllowFlagged(reason)
    case (None, None) => Allow
  }

  function Step(blockOwner: bool, m: Buckets, call: Call): Buckets
  {
    LevelBounds(BucketFor(m, call), call.now);
    if Limited(blockOwner, call) then m[call.key := BucketFor(m, call).After(call.now)] else m
  }

  function Run(blockOwner: bool, m: Buckets, calls: seq<Call>): Buckets
    decreases |calls|
  {
    if calls == [] then m else Run(blockOwner, Step(blockOwner, m, calls[0]), calls[1..])
  }

  /** A name flag alerts but never blocks: a call goes ahead exactly when it is not throttled. */
  lemma AllowedUnlessThrottled(blockOwner: bool, m: Buckets, call: Call)
    ensures Decide(blockOwner, m, call).Allowed() <==> Throttling(blockOwner, m, call).None?
    ensures Decide(blockOwner, m, call).Throttle? ==>
      Throttling(blockOwner, m, call) == Some(Decide(blockOwner, m, call).retryAfter)
  {
  }

  predicate On(blockOwner: bool, call: Call, key: Key) { call.key == key && Limited(blockOwner, call) }

  /** What the limited calls on one key are answered in a run, in order. */
  function OutcomesOn(blockOwner: bool, m: Buckets, calls: seq<Call>, key: Key): seq<Option<nat>>
    decreases |calls|
  {
    if calls == [] then []
    else
      (if On(blockOwner, calls[0], key) then [Throttling(blockOwner, m, calls[0])] else [])
      + OutcomesOn(blockOwner, Step(blockOwner, m, calls[0]), calls[1..], key)
  }

  /** How many of the limited calls on `key` a run allows. */
  function AllowedOn(blockOwner: bool, m: Buckets, calls: seq<Call>, key: Key): nat
  {
    CountAllowed(OutcomesOn(blockOwner, m, calls, key))
  }

  /** The times of the limited calls on one key. */
  function TimesOn(blockOwner: bool, calls: seq<Call>, key: Key): seq<real>
  {
    if calls == [] then []
    else
      (if On(blockOwner, calls[0], key) then [calls[0].now] else [])
      + TimesOn(blockOwner, calls[1..], key)
  }

  predicate InOrder(calls: seq<Call>)
  {
    forall i, j :: 0 <= i <= j < |calls| ==> calls[i].now <= calls[j].now
  }

  /** What a key's calls are answered is what its own bucket answers at their times: no other call
      matters. */
  lemma {:induction false} KeysAreIndependent(blockOwner: bool, m: Buckets, calls: seq<Call>, key: Key)
    ensures OutcomesOn(blockOwner, m, calls, key) ==
      Outcomes(BudgetOf(key.action), Lookup(m, key), TimesOn(blockOwner, calls, key))
    decreases |calls|
  {
    if calls != [] {
      var call, next := calls[0], Step(blockOwner, m, calls[0]);
      var rest := TimesOn(blockOwner, calls[1..], key);
      KeysAreIndependent(blockOwner, next, calls[1..], key);
      if On(blockOwner, call, key) {
        OutcomesHead(BudgetOf(key.action), Lookup(m, key), call.now, rest);
        assert Lookup(next, key) == Some(BucketFor(m, call).After(call.now));
      } else {
        assert Lookup(next, key) == Lookup(m, key);
        assert [] + rest == rest;
      }
    }
  }

  lemma {:induction false} RunConcat(blockOwner: bool, m: Buckets, calls: seq<Call>, more: seq<Call>)
    ensures Run(blockOwner, m, calls + more) == Run(blockOwner, Run(blockOwner, m, calls), more)
    decreases |calls|
  {
    if calls == [] {
      assert calls + more == more;
    } else {
      assert (calls + more)[1..] == calls[1..] + more;
      RunConcat(blockOwner, Step(blockOwner, m, calls[0]), calls[1..], more);
    }
  }

  lemma AllowedHead(blockOwner: bool, m: Buckets, calls: seq<Call>, key: Key)
    requires calls != []
    ensures AllowedOn(blockOwner, m, calls, key) ==
      (if On(blockOwner, calls[0], key) && Throttling(blockOwner, m, calls[0]).None? then 1 else 0)
      + AllowedOn(blockOwner, Step(blockOwner, m, calls[0]), calls[1..], key)
  {
    var rest := OutcomesOn(blockOwner, Step(blockOwner, m, calls[0]), calls[1..], key);
    if On(blockOwner, calls[0], key) {
      CountHead(Throttling(blockOwner, m, calls[0]), rest);
    } else {
      assert [] + rest == rest;
    }
  }

  /** A run of calls goes on where it was left. */
  lemma {:induction false} AllowedConcat(blockOwner: bool, m: Buckets, calls: seq<Call>, more: seq<Call>, key: Key)
    ensures AllowedOn(blockOwner, m, calls + more, key) ==
      AllowedOn(blockOwner, m, calls, key) + AllowedOn(blockOwner, Run(blockOwner, m, calls), more, key)
    decreases |calls|
  {
    if calls == [] {
      assert calls + more == more;
    } else {
      assert (calls + more)[0] == calls[0] && (calls + more)[1..] == calls[1..] + more;
      AllowedHead(blockOwner, m, calls + more, key);
      AllowedHead(blockOwner, m, calls, key);
      AllowedConcat(blockOwner, Step(blockOwner, m, calls[0]), calls[1..], more, key);
    }
  }

  lemma {:induction false} TimesOnRange(blockOwner: bool, calls: seq<Call>, key: Key, lo: real, hi: real)
    requires InOrder(calls) && forall i :: 0 <= i < |calls| ==> lo <= calls[i].now <= hi
    ensures
      var times := TimesOn(blockOwner, calls, key);
      Sorted(times) && forall i :: 0 <= i < |times| ==> lo <= times[i] <= hi
    decreases |calls|
  {
    if calls != [] {
      TimesOnRange(blockOwner, calls[1..], key, calls[0].now, hi);
    }
  }

  /** No bucket was last used after `now`. */
  predicate UsedBy(m: Buckets, now: real) { forall k | k in m :: m[k].last <= now }

  lemma {:induction false} RunUsedBy(blockOwner: bool, m: Buckets, calls: seq<Call>, now: real)
    requires UsedBy(m, now) && forall i :: 0 <= i < |calls| ==> calls[i].now <= now
    ensures UsedBy(Run(blockOwner, m, calls), now)
    decreases |calls|
  {
    if calls != [] {
      RunUsedBy(blockOwner, Step(blockOwner, m, calls[0]), calls[1..], now);
    }
  }

  /** In any run with non-decreasing times, whatever other keys' calls fall in between: after the
      `i`-th limited call on a key is refused with advice `r`, later ones up to `r - 1` seconds on
      are refused, and the first one `r` seconds on or later is allowed unless an earlier one
      already was. */
  lemma RetryAdvice(blockOwner: bool, earlier: seq<Call>, calls: seq<Call>, key: Key, start: real, i: nat, j: nat)
    requires InOrder(calls) && forall k :: 0 <= k < |calls| ==> start <= calls[k].now
    requires forall k :: 0 <= k < |earlier| ==> earlier[k].now <= start
    requires i < j < |OutcomesOn(blockOwner, Run(blockOwner, map[], earlier), calls, key)|
    requires OutcomesOn(blockOwner, Run(blockOwner, map[], earlier), calls, key)[i].Some?
    ensures
      var outcomes := OutcomesOn(blockOwner, Run(blockOwner, map[], earlier), calls, key);
      var times := TimesOn(blockOwner, calls, key);
      var r := outcomes[i].value as real;
      && |times| == |outcomes|
      && (times[j] <= times[i] + r - 1.0 ==> outcomes[j].Some?)
      && (times[j] >= times[i] + r && (forall k :: i < k < j ==> outcomes[k].Some?)
          ==> outcomes[j].None?)
  {
    var m := Run(blockOwner, map[], earlier);
    RunUsedBy(blockOwner, map[], earlier, start);
    KeysAreIndependent(blockOwner, m, calls, key);
    TimesOnRange(blockOwner, calls, key, start, calls[|calls| - 1].now);
    AdviceOnBucket(BudgetOf(key.action), Lookup(m, key), TimesOn(blockOwner, calls, key), i, j);
  }

  lemma WindowBound(blockOwner: bool, m: Buckets, calls: seq<Call>, key: Key, start: real, span: real)
    requires UsedBy(m, start) && InOrder(calls) && span >= 0.0
    requires forall i :: 0 <= i < |calls| ==> start <= calls[i].now <= start + span
    ensures AllowedOn(blockOwner, m, calls, key) as real
      <= BudgetOf(key.action).Capacity() + BudgetOf(key.action).Refill(span)
  {
    var budget := BudgetOf(key.action);
    var times := TimesOn(blockOwner, calls, key);
    KeysAreIndependent(blockOwner, m, calls, key);
    TimesOnRange(blockOwner, calls, key, start, start + span);
    if times != [] {
      OutcomesBound(budget, Lookup(m, key), times, start, span);
    }
  }

  lemma OutcomesBound(budget: Budget, b: Option<Bucket>, times: seq<real>, start: real, span: real)
    requires b.Some? ==> b.value.Valid() && b.value.budget == budget && b.value.last <= start
    requires times != [] && Sorted(times)
    requires forall i :: 0 <= i < |times| ==> start <= times[i] <= start + span
    ensures CountAllowed(Outcomes(budget, b, times)) as real <= budget.Capacity() + budget.Refill(span)
  {
    var bucket := if b.Some? then b.value else FullBucket(budget, times[0]);
    assert Outcomes(budget, b, times) == Outcomes(budget, Some(bucket), times);
    AllowedWithin(bucket, times);
    LevelBounds(bucket, times[0]);
  }

  /** In any run with non-decreasing times, the limited calls on a key that are allowed among
      those made from `start` on for `span` seconds number at most the capacity plus the refill
      over that span; calls on other keys and earlier calls change nothing. */
  lemma BurstBound(blockOwner: bool, earlier: seq<Call>, calls: seq<Call>, key: Key,
                   start: real, span: real)
    requires InOrder(earlier + calls) && span >= 0.0
    requires forall i :: 0 <= i < |earlier| ==> earlier[i].now <= start
    requires forall i :: 0 <= i < |calls| ==> start <= calls[i].now <= start + span
    ensures AllowedOn(blockOwner, Run(blockOwner, map[], earlier), calls, key) as real
      <= BudgetOf(key.action).Capacity() + BudgetOf(key.action).Refill(span)
  {
    RunUsedBy(blockOwner, map[], earlier, start);
    assert InOrder(calls) by {
      assert (earlier + calls)[|earlier|..] == calls;
      forall i, j | 0 <= i <= j < |calls| ensures calls[i].now <= calls[j].now {
        assert calls[i] == (earlier + calls)[|earlier| + i];
        assert calls[j] == (earlier + calls)[|earlier| + j];
      }
    }
    WindowBound(blockOwner, Run(blockOwner, map[], earlier), calls, key, start, span);
  }

  /** Why the times must not go back: a bucket just emptied refuses another call at that instant,
      but an out-of-order call at `back` in between makes the same seconds refill again, and the
      call is let through exactly when the step back spans the missing token. */
  lemma ClockStepBackRefills(b: Bucket, back: real)
    requires b.Valid() && b.tokens < 1.0 && back <= b.last
    ensures b.Outcome(b.last).Some?
    ensures b.After(back).Valid()
    ensures b.After(back).Outcome(b.last).None? <==> b.last - back >= b.budget.Time(1.0 - b.tokens)
  {
    LevelBounds(b, back);
    DueExactly(b.After(back), b.last);
  }

  function CallsAt(key: Key, times: seq<real>): seq<Call>
  {
    if times == [] then [] else [Call(key, None, [], false, times[0])] + CallsAt(key, times[1..])
  }

  lemma {:induction false} TimesOfCallsAt(key: Key, times: seq<real>)
    ensures TimesOn(false, CallsAt(key, times), key) == times
    decreases |times|
  {
    if times != [] {
      TimesOfCallsAt(key, times[1..]);
      assert CallsAt(key, times)[1..] == CallsAt(key, times[1..]);
    }
  }

  lemma AnswerAt(b: Bucket, now: real, rest: seq<real>)
    requires b.Valid() && b.budget == Tight
    ensures b.After(now).Valid()
    ensures CountAllowed(Outcomes(Tight, Some(b), [now] + rest)) ==
      (if b.Level(now) >= 1.0 then 1 else 0) + CountAllowed(Outcomes(Tight, Some(b.After(now)), rest))
  {
    OutcomesHead(Tight, Some(b), now, rest);
    CountHead(b.Outcome(now), Outcomes(Tight, Some(b.After(now)), rest));
  }

  lemma FirstFour(t: real, rest: seq<real>)
    ensures CountAllowed(Outcomes(Tight, Some(FullBucket(Tight, t)), [t] + ([t] + ([t] + ([t - 20.0] + rest))))) ==
      3 + CountAllowed(Outcomes(Tight, Some(Bucket(0.0, Tight, t - 20.0)), rest))
  {
    AnswerAt(Bucket(3.0, Tight, t), t, [t] + ([t] + ([t - 20.0] + rest)));
    AnswerAt(Bucket(2.0, Tight, t), t, [t] + ([t - 20.0] + rest));
    AnswerAt(Bucket(1.0, Tight, t), t, [t - 20.0] + rest);
    AnswerAt(Bucket(0.0, Tight, t), t - 20.0, rest);
  }

  lemma LastThree(t: real)
    ensures CountAllowed(Outcomes(Tight, Some(Bucket(0.0, Tight, t - 20.0)), [t] + ([t - 20.0] + ([t] + [])))) == 2
  {
    AnswerAt(Bucket(0.0, Tight, t - 20.0), t, [t - 20.0] + ([t] + []));
    AnswerAt(Bucket(0.0, Tight, t), t - 20.0, [t] + []);
    AnswerAt(Bucket(0.0, Tight, t - 20.0), t, []);
  }

  lemma FilledByFirst(budget: Budget, now: real, rest: seq<real>)
    ensures Outcomes(budget, None, [now] + rest) == Outcomes(budget, Some(FullBucket(budget, now)), [now] + rest)
  {
    OutcomesHead(budget, None, now, rest);
    OutcomesHead(budget, Some(FullBucket(budget, now)), now, rest);
  }

  /** The bound of a window does break when times go back: these seven calls fall within twenty
      seconds, for which it is four, and five of them are allowed. */
  lemma StepsBackBreakTheBound(actor: Actor, t: real)
    ensures
      var key := Key(actor, DeleteChannel);
      var calls := CallsAt(key, [t, t, t, t - 20.0, t, t - 20.0, t]);
      && AllowedOn(false, map[], calls, key) == 5
      && Tight.Capacity() + Tight.Refill(20.0) == 4.0
  {
    var key := Key(actor, DeleteChannel);
    var times := [t, t, t, t - 20.0, t, t - 20.0, t];
    var last := [t] + ([t - 20.0] + ([t] + []));
    KeysAreIndependent(false, map[], CallsAt(key, times), key);
    TimesOfCallsAt(key, times);
    assert times == [t] + ([t] + ([t] + ([t - 20.0] + last)));
    FilledByFirst(Tight, t, [t] + ([t] + ([t - 20.0] + last)));
    FirstFour(t, last);
    LastThree(t);
  }

  // ----- the objects -----

  class TokenBucket {
    var tokens: real
    const budget: Budget
    var last: real

    function View(): Bucket reads this { Bucket(tokens, budget, last) }

    constructor (bucket: Bucket)
      ensures View() == bucket
    {
      this.tokens, this.budget, this.last := bucket.tokens, bucket.budget, bucket.last;
    }

    method TryTake(now: real) returns (wait: Option<nat>)
      requires View().Valid()
      modifies this
      ensures View() == old(View()).After(now) && View().Valid()
      ensures wait == old(View()).Outcome(now)
    {
      LevelBounds(View(), now);
      var elapsed := if now > last then now - last else 0.0;
      tokens := tokens + budget.Refill(elapsed);
      if tokens > budget.Capacity() { tokens := budget.Capacity(); }
      last := now;
      if tokens >= 1.0 {
        tokens := tokens - 1.0;
        wait := None;
      } else {
        var secs := Ceiling(budget.Time(1.0 - tokens));
        wait := Some(if secs > 1 then secs else 1);
      }
    }
  }

  /** The engine. Its map owns the buckets by value, as the source's does. */
  class Limiter {
    const blockOwner: bool
    var buckets: Buckets

    constructor (blockOwner: bool)
      ensures buckets == map[] && this.blockOwner == blockOwner
    {
      this.blockOwner := blockOwner;
      buckets := map[];
    }

    /** Spends a token of the caller's bucket, unless the caller is an exempt owner. */
    method Spend(call: Call) returns (wait: Option<nat>)
      modifies this
      ensures buckets == Step(blockOwner, old(buckets), call)
      ensures wait == Throttling(blockOwner, old(buckets), call)
    {
      if call.isOwner && !blockOwner { return None; }
      if call.key !in buckets {
        buckets := buckets[call.key := FullBucket(BudgetOf(call.key.action), call.now)];
      }
      var bucket := new TokenBucket(buckets[call.key]);
      wait := bucket.TryTake(call.now);
      buckets := buckets[call.key := bucket.View()];
    }

    method CheckAt(call: Call) returns (decision: Decision)
      modifies this
      ensures buckets == Step(blockOwner, old(buckets), call)
      ensures decision == Decide(blockOwner, old(buckets), call)
    {
      var flagged := Flag(call);
      var throttle := Spend(call);
      match throttle
      case Some(secs) => decision := Throttle(secs);
      case None => decision := if flagged.Some? then AllowFlagged(flagged.value) else Allow;
    }
  }
}
