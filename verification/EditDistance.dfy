/** Levenshtein edit distance: the two-row dynamic program that backs the channel-name
    heuristics, proved to compute the length of a shortest edit script, and the proof that
    this length is a metric. */
module EditDistance {

  import opened Options

  function Min(x: nat, y: nat): nat { if x < y then x else y }

  function Max(x: nat, y: nat): nat { if x < y then y else x }

  // ----- edit scripts: the meaning of "distance", with no mention of the table -----

  /** One single-character edit of a string. */
  datatype Edit =
    | Insert(at: nat, c: char)
    | Delete(at: nat)
    | Substitute(at: nat, c: char)

  /** The string after one edit, or None when its position is outside the string. */
  function Apply(s: string, e: Edit): (r: Option<string>)
    ensures r.Some? ==> |r.value| <= |s| + 1 && |s| <= |r.value| + 1
  {
    match e
    case Insert(at, c) => if at <= |s| then Some(s[..at] + [c] + s[at..]) else None
    case Delete(at) => if at < |s| then Some(s[..at] + s[at + 1..]) else None
    case Substitute(at, c) => if at < |s| then Some(s[at := c]) else None
  }

  /** Whether performing the edits of `script` in order turns `s` into `t`. */
  predicate Turns(s: string, script: seq<Edit>, t: string)
    decreases |script|
  {
    if script == [] then s == t
    else Apply(s, script[0]).Some? && Turns(Apply(s, script[0]).value, script[1..], t)
  }

  // ----- the table, row by row -----

  function Cost(x: char, y: char): nat { if x == y then 0 else 1 }

  /** The first `j + 1` entries of the row below `prev`, for character `x` in row `i`. */
  function RowBelow(prev: seq<nat>, x: char, i: nat, b: string, j: nat): (row: seq<nat>)
    requires |prev| == |b| + 1 && j <= |b|
    ensures |row| == j + 1
  {
    if j == 0 then [i]
    else
      var row := RowBelow(prev, x, i, b, j - 1);
      row + [Min(Min(prev[j] + 1, row[j - 1] + 1), prev[j - 1] + Cost(x, b[j - 1]))]
  }

  function Row(a: string, i: nat, b: string): (row: seq<nat>)
    requires i <= |a|
    ensures |row| == |b| + 1
  {
    if i == 0 then seq(|b| + 1, k => k) else RowBelow(Row(a, i - 1, b), a[i - 1], i, b, |b|)
  }

  /** The table entry for the first `i` characters of `a` and the first `j` of `b`. */
  function Cell(a: string, i: nat, b: string, j: nat): nat
    requires i <= |a| && j <= |b|
  {
    Row(a, i, b)[j]
  }

  function Distance(a: string, b: string): nat { Cell(a, |a|, b, |b|) }

  lemma {:induction false} RowBelowPrefix(prev: seq<nat>, x: char, i: nat, b: string, j: nat, n: nat)
    requires |prev| == |b| + 1 && j <= n <= |b|
    ensures RowBelow(prev, x, i, b, n)[..j + 1] == RowBelow(prev, x, i, b, j)
    decreases n
  {
    if j < n {
      RowBelowPrefix(prev, x, i, b, j, n - 1);
      assert RowBelow(prev, x, i, b, n)[..j + 1] == RowBelow(prev, x, i, b, n - 1)[..j + 1];
    }
  }

  /** What one entry of the table is in terms of its neighbours. */
  lemma CellFacts(a: string, i: nat, b: string, j: nat)
    requires i <= |a| && j <= |b|
    ensures i == 0 ==> Cell(a, i, b, j) == j
    ensures j == 0 ==> Cell(a, i, b, j) == i
    ensures i > 0 && j > 0 ==>
      Cell(a, i, b, j) == Min(Min(Cell(a, i - 1, b, j) + 1, Cell(a, i, b, j - 1) + 1),
                              Cell(a, i - 1, b, j - 1) + Cost(a[i - 1], b[j - 1]))
  {
    if i > 0 {
      var prev := Row(a, i - 1, b);
      var full := RowBelow(prev, a[i - 1], i, b, |b|);
      RowBelowPrefix(prev, a[i - 1], i, b, j, |b|);
      assert full[j] == full[..j + 1][j];
      if j > 0 {
        RowBelowPrefix(prev, a[i - 1], i, b, j - 1, |b|);
        assert full[j - 1] == full[..j][j - 1];
      }
    }
  }

  // ----- the two-row loop -----

  /** Fills one row of the table from the row above it. */
  method FillRow(x: char, i: nat, b: string, prev: array<nat>, cur: array<nat>)
    requires prev.Length == cur.Length == |b| + 1 && prev != cur
    modifies cur
    ensures cur[..] == RowBelow(prev[..], x, i, b, |b|)
  {
    cur[0] := i;
    for j := 0 to |b|
      invariant prev[..] == old(prev[..])
      invariant cur[..j + 1] == RowBelow(prev[..], x, i, b, j)
    {
      var cost := Cost(x, b[j]);
      cur[j + 1] := Min(Min(prev[j + 1] + 1, cur[j] + 1), prev[j] + cost);
      assert cur[..j + 2] == cur[..j + 1] + [cur[j + 1]];
      assert cur[j] == cur[..j + 1][j];
    }
    assert cur[..|b| + 1] == cur[..];
  }

  method Levenshtein(a: string, b: string) returns (d: nat)
    ensures d == Distance(a, b)
  {
    CellFacts(a, |a|, b, |b|);
    if |a| == 0 { return |b|; }
    if |b| == 0 { return |a|; }
    var prev := new nat[|b| + 1](k => k);
    var cur := new nat[|b| + 1](_ => 0);
    assert prev[..] == Row(a, 0, b);
    for i := 0 to |a|
      invariant prev.Length == cur.Length == |b| + 1 && prev != cur
      invariant fresh(prev) && fresh(cur)
      invariant prev[..] == Row(a, i, b)
    {
      FillRow(a[i], i + 1, b, prev, cur);
      prev, cur := cur, prev;
    }
    d := prev[|b|];
  }

  // ----- metric laws -----

  lemma {:induction false} CellSymmetric(a: string, i: nat, b: string, j: nat)
    requires i <= |a| && j <= |b|
    ensures Cell(a, i, b, j) == Cell(b, j, a, i)
    decreases i + j
  {
    CellFacts(a, i, b, j);
    CellFacts(b, j, a, i);
    if i > 0 && j > 0 {
      CellSymmetric(a, i - 1, b, j);
      CellSymmetric(a, i, b, j - 1);
      CellSymmetric(a, i - 1, b, j - 1);
    }
  }

  lemma {:induction false} CellBounds(a: string, i: nat, b: string, j: nat)
    requires i <= |a| && j <= |b|
    ensures Cell(a, i, b, j) <= Max(i, j)
    ensures i <= Cell(a, i, b, j) + j && j <= Cell(a, i, b, j) + i
    decreases i + j
  {
    CellFacts(a, i, b, j);
    if i > 0 && j > 0 {
      CellBounds(a, i - 1, b, j);
      CellBounds(a, i, b, j - 1);
      CellBounds(a, i - 1, b, j - 1);
    }
  }

  lemma {:induction false} CellZero(a: string, i: nat, b: string, j: nat)
    requires i <= |a| && j <= |b|
    ensures Cell(a, i, b, j) == 0 <==> a[..i] == b[..j]
    decreases i + j
  {
    CellFacts(a, i, b, j);
    if i > 0 && j > 0 {
      CellZero(a, i - 1, b, j - 1);
      assert a[..i] == a[..i - 1] + [a[i - 1]];
      assert b[..j] == b[..j - 1] + [b[j - 1]];
    } else {
      assert |a[..i]| == i && |b[..j]| == j;
    }
  }

  lemma {:induction false} CellTriangle(a: string, i: nat, b: string, j: nat, c: string, k: nat)
    requires i <= |a| && j <= |b| && k <= |c|
    ensures Cell(a, i, c, k) <= Cell(a, i, b, j) + Cell(b, j, c, k)
    decreases i + j + k
  {
    CellFacts(a, i, b, j);
    CellFacts(b, j, c, k);
    CellFacts(a, i, c, k);
    if i == 0 || j == 0 || k == 0 {
      CellBounds(a, i, b, j);
      CellBounds(b, j, c, k);
      CellBounds(a, i, c, k);
    } else if Cell(a, i, b, j) == Cell(a, i - 1, b, j) + 1 {
      CellTriangle(a, i - 1, b, j, c, k);
    } else if Cell(b, j, c, k) == Cell(b, j, c, k - 1) + 1 {
      CellTriangle(a, i, b, j, c, k - 1);
    } else if Cell(a, i, b, j) == Cell(a, i, b, j - 1) + 1 {
      if Cell(b, j, c, k) == Cell(b, j - 1, c, k) + 1 {
        CellTriangle(a, i, b, j - 1, c, k);
      } else {
        CellTriangle(a, i, b, j - 1, c, k - 1);
      }
    } else if Cell(b, j, c, k) == Cell(b, j - 1, c, k) + 1 {
      CellTriangle(a, i - 1, b, j - 1, c, k);
    } else {
      CellTriangle(a, i - 1, b, j - 1, c, k - 1);
    }
  }

  /** The distance is a metric on all strings, and never exceeds the longer length. */
  lemma DistanceIsMetric(a: string, b: string, c: string)
    ensures Distance(a, b) == 0 <==> a == b
    ensures Distance(a, b) == Distance(b, a)
    ensures Distance(a, c) <= Distance(a, b) + Distance(b, c)
    ensures Distance(a, b) <= Max(|a|, |b|)
  {
    CellZero(a, |a|, b, |b|);
    assert a[..|a|] == a && b[..|b|] == b;
    CellSymmetric(a, |a|, b, |b|);
    CellTriangle(a, |a|, b, |b|, c, |c|);
    CellBounds(a, |a|, b, |b|);
  }

  // ----- the distance is the length of a shortest script -----

  lemma Prepend(s: string, e: Edit, u: string, script: seq<Edit>, t: string)
    requires Apply(s, e) == Some(u) && Turns(u, script, t)
    ensures Turns(s, [e] + script, t)
  {
    assert ([e] + script)[1..] == script;
  }

  // The three ways a script goes on, at the seam between a rewritten ending and what is still to
  // be rewritten.

  lemma DeletesLast(a: string, i: nat, rest: string, script: seq<Edit>, t: string)
    requires 0 < i <= |a| && Turns(a[..i - 1] + rest, script, t)
    ensures Turns(a[..i] + rest, [Delete(i - 1)] + script, t)
  {
    var s := a[..i] + rest;
    assert s[..i - 1] + s[i - 1 + 1..] == a[..i - 1] + rest;
    Prepend(s, Delete(i - 1), a[..i - 1] + rest, script, t);
  }

  lemma InsertsNext(a: string, i: nat, c: char, rest: string, script: seq<Edit>, t: string)
    requires i <= |a| && Turns(a[..i] + ([c] + rest), script, t)
    ensures Turns(a[..i] + rest, [Insert(i, c)] + script, t)
  {
    var s := a[..i] + rest;
    assert s[..i] + [c] + s[i..] == a[..i] + ([c] + rest);
    Prepend(s, Insert(i, c), a[..i] + ([c] + rest), script, t);
  }

  lemma SubstitutesLast(a: string, i: nat, c: char, rest: string, script: seq<Edit>, t: string)
    requires 0 < i <= |a| && Turns(a[..i - 1] + ([c] + rest), script, t)
    ensures a[i - 1] == c ==> Turns(a[..i] + rest, script, t)
    ensures Turns(a[..i] + rest, [Substitute(i - 1, c)] + script, t)
  {
    var s := a[..i] + rest;
    assert s[i - 1 := c] == a[..i - 1] + ([c] + rest);
    if a[i - 1] == c { assert s[i - 1 := c] == s; }
    Prepend(s, Substitute(i - 1, c), a[..i - 1] + ([c] + rest), script, t);
  }

  /** Which neighbour the entry comes from. */
  lemma CellFrom(a: string, i: nat, b: string, j: nat)
    requires i <= |a| && j <= |b| && (i > 0 || j > 0)
    ensures
      || (i > 0 && Cell(a, i, b, j) == Cell(a, i - 1, b, j) + 1)
      || (j > 0 && Cell(a, i, b, j) == Cell(a, i, b, j - 1) + 1)
      || (i > 0 && j > 0 && Cell(a, i, b, j) == Cell(a, i - 1, b, j - 1) + Cost(a[i - 1], b[j - 1]))
  {
    CellFacts(a, i, b, j);
    if i > 0 { CellFacts(a, i - 1, b, j); }
    if j > 0 { CellFacts(a, i, b, j - 1); }
  }

  lemma LastOf(b: string, j: nat, rest: string)
    requires 0 < j <= |b|
    ensures b[..j - 1] + ([b[j - 1]] + rest) == b[..j] + rest
  {
  }

  /** A script of exactly Cell(a, i, b, j) edits rewriting the first part, whatever follows it. */
  lemma {:induction false} ShortScript(a: string, i: nat, b: string, j: nat, rest: string)
    returns (script: seq<Edit>)
    requires i <= |a| && j <= |b|
    ensures |script| == Cell(a, i, b, j)
    ensures Turns(a[..i] + rest, script, b[..j] + rest)
    decreases i + j
  {
    if i == 0 && j == 0 {
      CellFacts(a, i, b, j);
      script := [];
      assert a[..i] + rest == b[..j] + rest;
    } else {
      CellFrom(a, i, b, j);
      if i > 0 && Cell(a, i, b, j) == Cell(a, i - 1, b, j) + 1 {
        script := ShortScript(a, i - 1, b, j, rest);
        DeletesLast(a, i, rest, script, b[..j] + rest);
        script := [Delete(i - 1)] + script;
      } else {
        LastOf(b, j, rest);
        if Cell(a, i, b, j) == Cell(a, i, b, j - 1) + 1 {
          script := ShortScript(a, i, b, j - 1, [b[j - 1]] + rest);
          InsertsNext(a, i, b[j - 1], rest, script, b[..j] + rest);
          script := [Insert(i, b[j - 1])] + script;
        } else {
          script := ShortScript(a, i - 1, b, j - 1, [b[j - 1]] + rest);
          SubstitutesLast(a, i, b[j - 1], rest, script, b[..j] + rest);
          script := if a[i - 1] == b[j - 1] then script else [Substitute(i - 1, b[j - 1])] + script;
        }
      }
    }
  }

  /** A common ending adds nothing to the distance. */
  lemma {:induction false} CommonEnding(s: string, p: nat, t: string, q: nat)
    requires p <= |s| && q <= |t| && s[p..] == t[q..]
    ensures Distance(s, t) <= Cell(s, p, t, q)
    decreases |s| - p
  {
    assert |s[p..]| == |s| - p && |t[q..]| == |t| - q;
    if p < |s| {
      assert s[p] == s[p..][0] == t[q..][0] == t[q];
      assert s[p + 1..] == s[p..][1..] == t[q..][1..] == t[q + 1..];
      CellFacts(s, p + 1, t, q + 1);
      CommonEnding(s, p + 1, t, q + 1);
    }
  }

  lemma OneEditIsNear(s: string, e: Edit)
    requires Apply(s, e).Some?
    ensures Distance(s, Apply(s, e).value) <= 1
  {
    var t := Apply(s, e).value;
    var k := e.at;
    CellZero(s, k, t, k);
    assert s[..k] == t[..k];
    match e
    case Insert(_, _) =>
      CellFacts(s, k, t, k + 1);
      CommonEnding(s, k, t, k + 1);
    case Delete(_) =>
      CellFacts(s, k + 1, t, k);
      CommonEnding(s, k + 1, t, k);
    case Substitute(_, _) =>
      CellFacts(s, k + 1, t, k + 1);
      assert s[k + 1..] == t[k + 1..];
      CommonEnding(s, k + 1, t, k + 1);
  }

  lemma {:induction false} NoScriptBeats(s: string, script: seq<Edit>, t: string)
    requires Turns(s, script, t)
    ensures Distance(s, t) <= |script|
    decreases |script|
  {
    if script == [] {
      DistanceIsMetric(s, t, t);
    } else {
      var u := Apply(s, script[0]).value;
      OneEditIsNear(s, script[0]);
      NoScriptBeats(u, script[1..], t);
      DistanceIsMetric(s, u, t);
    }
  }

  /** What the loop returns is the least number of single-character inserts, deletes and
      substitutions that turn one string into the other. */
  lemma DistanceIsShortestScript(a: string, b: string)
    ensures exists script :: |script| == Distance(a, b) && Turns(a, script, b)
    ensures forall script :: Turns(a, script, b) ==> Distance(a, b) <= |script|
  {
    var script := ShortScript(a, |a|, b, |b|, []);
    assert a[..|a|] + [] == a && b[..|b|] + [] == b;
    forall other | Turns(a, other, b) ensures Distance(a, b) <= |other| {
      NoScriptBeats(a, other, b);
    }
  }
}
