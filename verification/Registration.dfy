/** The per-address brake on remote registrations: a sliding window kept as a pruned log, proved
    to decide as the full history of admitted attempts would. */
module Registration {
  type Address = nat

  const LIMIT := 5
  const WINDOW := 3600.0

  datatype Attempt = Attempt(ip: Address, now: real)

  /** Whether an entry made at `at` still counts at `now`. */
  predicate Recent(at: real, now: real) { (if now > at then now - at else 0.0) < WINDOW }

  /** What pruning leaves of a log. */
  function Pruned(log: seq<real>, now: real): (r: seq<real>)
    ensures |r| <= |log|
  {
    if log == [] then []
    else
      var older, at := Pruned(log[..|log| - 1], now), log[|log| - 1];
      if Recent(at, now) then older + [at] else older
  }

  // ----- the reference: nothing is ever forgotten -----

  /** The times admitted for one address, deciding each attempt by the whole history. */
  function History(attempts: seq<Attempt>, ip: Address): (h: seq<real>)
    decreases |attempts|, 0
  {
    if attempts == [] then []
    else
      var before, last := attempts[..|attempts| - 1], attempts[|attempts| - 1];
      var h := History(before, ip);
      if last.ip == ip && Admits(before, last) then h + [last.now] else h
  }

  /** Fewer than five attempts were admitted from this address in the last hour. */
  predicate Admits(attempts: seq<Attempt>, next: Attempt)
    decreases |attempts|, 1
  {
    |Pruned(History(attempts, next.ip), next.now)| < LIMIT
  }

  predicate InOrder(attempts: seq<Attempt>)
  {
    forall i, j :: 0 <= i <= j < |attempts| ==> attempts[i].now <= attempts[j].now
  }

  // ----- the service's log -----

  class RegLog {
    var log: map<Address, seq<real>>

    constructor ()
      ensures log == map[]
    {
      log := map[];
    }

    method Retain(entries: seq<real>, now: real) returns (kept: seq<real>)
      ensures kept == Pruned(entries, now)
    {
      kept := [];
      for i := 0 to |entries|
        invariant kept == Pruned(entries[..i], now)
      {
        assert entries[..i + 1][..i] == entries[..i];
        if Recent(entries[i], now) { kept := kept + [entries[i]]; }
      }
      assert entries[..|entries|] == entries;
    }

    /** Prunes the caller's log, then admits and records the attempt if it holds fewer than five
        entries. A refused attempt is not recorded. */
    method CheckRate(attempt: Attempt) returns (ok: bool)
      modifies this
      ensures ok == (|Pruned(Entries(old(log), attempt.ip), attempt.now)| < LIMIT)
      ensures log == Next(old(log), attempt)
    {
      var entries := Retain(Entries(log, attempt.ip), attempt.now);
      ok := |entries| < LIMIT;
      log := log[attempt.ip := if ok then entries + [attempt.now] else entries];
    }
  }

  function Entries(log: map<Address, seq<real>>, ip: Address): seq<real>
  {
    if ip in log then log[ip] else []
  }

  function Next(log: map<Address, seq<real>>, attempt: Attempt): map<Address, seq<real>>
  {
    var entries := Pruned(Entries(log, attempt.ip), attempt.now);
    log[attempt.ip := if |entries| < LIMIT then entries + [attempt.now] else entries]
  }

  function LogAfter(attempts: seq<Attempt>): map<Address, seq<real>>
  {
    if attempts == [] then map[]
    else Next(LogAfter(attempts[..|attempts| - 1]), attempts[|attempts| - 1])
  }

  // ----- pruning early loses nothing that could still count -----

  lemma PrunedSnoc(log: seq<real>, at: real, now: real)
    ensures Pruned(log + [at], now) == if Recent(at, now) then Pruned(log, now) + [at] else Pruned(log, now)
  {
    assert (log + [at])[..|log|] == log;
  }

  lemma {:induction false} PruneTwice(log: seq<real>, now: real, later: real)
    requires now <= later
    ensures Pruned(Pruned(log, now), later) == Pruned(log, later)
    decreases |log|
  {
    if log != [] {
      var u, at := log[..|log| - 1], log[|log| - 1];
      PruneTwice(u, now, later);
      if Recent(at, now) {
        PrunedSnoc(Pruned(u, now), at, later);
      }
    }
  }

  lemma PruneThenAdmit(log: seq<real>, h: seq<real>, at: real, now: real)
    requires at <= now
    requires Pruned(log, at) == Pruned(h, at) && Pruned(log, now) == Pruned(h, now)
    ensures Pruned(Pruned(log, at) + [at], now) == Pruned(h + [at], now)
    ensures Pruned(Pruned(log, at), now) == Pruned(h, now)
  {
    PruneTwice(log, at, now);
    PrunedSnoc(Pruned(log, at), at, now);
    PrunedSnoc(h, at, now);
  }

  /** The pruned log holds, at every later time, what the full history holds. */
  lemma {:induction false} LogIsHistory(attempts: seq<Attempt>, ip: Address, now: real)
    requires InOrder(attempts)
    requires attempts != [] ==> attempts[|attempts| - 1].now <= now
    ensures Pruned(Entries(LogAfter(attempts), ip), now) == Pruned(History(attempts, ip), now)
    decreases |attempts|
  {
    if attempts != [] {
      var before, last := attempts[..|attempts| - 1], attempts[|attempts| - 1];
      assert InOrder(before);
      assert before != [] ==> before[|before| - 1].now <= last.now;
      LogIsHistory(before, ip, now);
      if last.ip == ip {
        LogIsHistory(before, ip, last.now);
        PruneThenAdmit(Entries(LogAfter(before), ip), History(before, ip), last.now, now);
      }
    }
  }

  /** The pruned log decides every attempt exactly as the full history would. */
  lemma PrunedLogDecides(attempts: seq<Attempt>, next: Attempt)
    requires InOrder(attempts + [next])
    ensures |Pruned(Entries(LogAfter(attempts), next.ip), next.now)| < LIMIT <==> Admits(attempts, next)
  {
    assert forall i :: 0 <= i < |attempts| ==> attempts[i] == (attempts + [next])[i];
    assert (attempts + [next])[|attempts|] == next;
    LogIsHistory(attempts, next.ip, next.now);
  }

  // ----- six admissions take an hour -----

  /** Sorted, and nothing later than `now`. */
  predicate SortedUntil(h: seq<real>, now: real)
  {
    && (forall i, j :: 0 <= i <= j < |h| ==> h[i] <= h[j])
    && (forall i :: 0 <= i < |h| ==> h[i] <= now)
  }

  lemma {:induction false} HistoryInOrder(attempts: seq<Attempt>, ip: Address, now: real)
    requires InOrder(attempts)
    requires attempts != [] ==> attempts[|attempts| - 1].now <= now
    ensures SortedUntil(History(attempts, ip), now)
    decreases |attempts|
  {
    if attempts != [] {
      var before, last := attempts[..|attempts| - 1], attempts[|attempts| - 1];
      assert before != [] ==> before[|before| - 1].now <= last.now;
      HistoryInOrder(before, ip, last.now);
      SortedUntilGrows(History(before, ip), last.now, now);
    }
  }

  lemma SortedUntilGrows(h: seq<real>, at: real, now: real)
    requires SortedUntil(h, at) && at <= now
    ensures SortedUntil(h, now) && SortedUntil(h + [at], now)
  {
  }

  /** If the `k`-th newest entry of a sorted log still counts, the `k` newest do. */
  lemma {:induction false} RecentTail(h: seq<real>, k: nat, now: real)
    requires k <= |h| && SortedUntil(h, now)
    requires k > 0 ==> Recent(h[|h| - k], now)
    ensures |Pruned(h, now)| >= k
    decreases k
  {
    if k > 0 {
      RecentTail(h[..|h| - 1], k - 1, now);
    }
  }

  /** Of any six consecutive admissions from one address, the last is at least an hour after the
      first. */
  lemma {:induction false} SixSpanTheWindow(attempts: seq<Attempt>, ip: Address, i: nat)
    requires InOrder(attempts) && i + LIMIT < |History(attempts, ip)|
    ensures History(attempts, ip)[i + LIMIT] - History(attempts, ip)[i] >= WINDOW
    decreases |attempts|
  {
    var before, last := attempts[..|attempts| - 1], attempts[|attempts| - 1];
    var h := History(before, ip);
    if i + LIMIT < |h| {
      SixSpanTheWindow(before, ip, i);
    } else {
      assert before != [] ==> before[|before| - 1].now <= last.now;
      HistoryInOrder(before, ip, last.now);
      assert History(attempts, ip) == h + [last.now];
      if Recent(h[i], last.now) {
        RecentTail(h, LIMIT, last.now);
      }
    }
  }
}
