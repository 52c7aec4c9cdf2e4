/** Channel-name heuristics: normalisation, similarity, the random-string detector and the
    verdict, with the proof that the verdict sees a name only up to letter case and spacing,
    and the recent names only as a collection. Text is ASCII, and ratios are exact reals. */
module ChannelNames {
  import opened Options
  import opened EditDistance

  datatype Reason =
    | MostlyDigits(percent: int)
    | NoVowels
    | LowVariety
    | LowVariance(similar: nat)

  datatype Verdict = Fine | Suspicious(reason: Reason)

  const SPAM_CLUSTER := 3
  const SIMILAR := 0.8

  // ----- characters -----

  predicate IsSpace(c: char) { c == ' ' || '\t' <= c <= '\r' }

  predicate IsUpper(c: char) { 'A' <= c <= 'Z' }

  predicate IsLetter(c: char) { 'a' <= c <= 'z' || IsUpper(c) }

  predicate IsDigit(c: char) { '0' <= c <= '9' }

  predicate IsVowel(c: char) { c in "aeiouy" }

  function Lower(c: char): char { if IsUpper(c) then c - 'A' + 'a' else c }

  function LowerText(s: string): (r: string)
    ensures |r| == |s| && forall i :: 0 <= i < |s| ==> r[i] == Lower(s[i])
  {
    seq(|s|, i requires 0 <= i < |s| => Lower(s[i]))
  }

  // ----- normalisation: trim, lowercase, split on whitespace, join with one space -----

  function TrimStart(s: string): string
  {
    if s != [] && IsSpace(s[0]) then TrimStart(s[1..]) else s
  }

  function TrimEnd(s: string): string
  {
    if s != [] && IsSpace(s[|s| - 1]) then TrimEnd(s[..|s| - 1]) else s
  }

  function Trim(s: string): string { TrimEnd(TrimStart(s)) }

  /** A scan in progress: the words so far, and whether the last one may still grow. */
  datatype Scan = Scan(words: seq<string>, open: bool)

  function Feed(scan: Scan, c: char): Scan
  {
    var n := |scan.words|;
    if IsSpace(c) then Scan(scan.words, false)
    else if scan.open && n > 0 then Scan(scan.words[n - 1 := scan.words[n - 1] + [c]], true)
    else Scan(scan.words + [[c]], true)
  }

  function FeedAll(scan: Scan, s: string): Scan
    decreases |s|
  {
    if s == [] then scan else Feed(FeedAll(scan, s[..|s| - 1]), s[|s| - 1])
  }

  function Words(s: string): seq<string> { FeedAll(Scan([], false), s).words }

  function Join(words: seq<string>): string
  {
    var n := |words|;
    if n == 0 then ""
    else if n == 1 then words[0]
    else Join(words[..n - 1]) + " " + words[n - 1]
  }

  function Normalize(s: string): string { Join(Words(LowerText(Trim(s)))) }

  // ----- similarity and the detector -----

  function Similarity(a: string, b: string): real
  {
    var longer := Max(|a|, |b|);
    if longer == 0 then 1.0 else 1.0 - Distance(a, b) as real / longer as real
  }

  function CountIf(s: string, p: char -> bool): (n: nat)
    ensures n <= |s|
  {
    if s == [] then 0 else (if p(s[0]) then 1 else 0) + CountIf(s[1..], p)
  }

  function LooksRandom(norm: string): Option<Reason>
  {
    var letters := CountIf(norm, IsLetter);
    var digits := CountIf(norm, IsDigit);
    var total := CountIf(norm, c => !IsSpace(c));
    if total < 5 then None
    else
      var digitRatio := digits as real / total as real;
      if digitRatio > 0.5 then Some(MostlyDigits((digitRatio * 100.0).Floor))
      else if letters >= 5 then
        var vowelRatio := CountIf(norm, IsVowel) as real / letters as real;
        var distinct := |set c | c in norm && IsLetter(c)|;
        if vowelRatio < 0.15 then Some(NoVowels)
        else if letters >= 6 && distinct <= 2 then Some(LowVariety)
        else None
      else None
  }

  /** 1 when a recent name is near-identical to the proposed one, once normalised. */
  function Hit(norm: string, recent: string): nat
  {
    if Similarity(norm, Normalize(recent)) >= SIMILAR then 1 else 0
  }

  function CountSimilar(norm: string, recent: seq<string>): nat
  {
    if recent == [] then 0 else Hit(norm, recent[0]) + CountSimilar(norm, recent[1..])
  }

  /** The verdict on a normalised name with `similar` near-identical recent names. */
  function Judge(norm: string, similar: nat): Verdict
  {
    if norm == "" then Fine
    else match LooksRandom(norm)
      case Some(reason) => Suspicious(reason)
      case None => if similar >= SPAM_CLUSTER then Suspicious(LowVariance(similar)) else Fine
  }

  function AssessName(name: string, recent: seq<string>): Verdict
  {
    var norm := Normalize(name);
    Judge(norm, CountSimilar(norm, recent))
  }

  // ----- similarity laws -----

  lemma RatioLaws(d: nat, n: nat)
    requires 0 < n && d <= n
    ensures 0.0 <= d as real / n as real <= 1.0
    ensures d as real / n as real == 0.0 <==> d == 0
  {
    var q := d as real / n as real;
    assert q * n as real == d as real;
    assert q < 0.0 ==> q * n as real < 0.0;
    assert q > 1.0 ==> q * n as real > n as real;
  }

  lemma SimilarityLaws(a: string, b: string)
    ensures Similarity(a, b) == Similarity(b, a)
    ensures 0.0 <= Similarity(a, b) <= 1.0
    ensures Similarity(a, b) == 1.0 <==> a == b
  {
    DistanceIsMetric(a, b, a);
    var longer := Max(|a|, |b|);
    if longer > 0 {
      RatioLaws(Distance(a, b), longer);
    }
  }

  // ----- what normalisation forgets, and nothing more -----

  /** A character up to letter case and kind of whitespace. */
  function Canon(c: char): char { if IsSpace(c) then ' ' else Lower(c) }

  function CanonText(s: string): (r: string)
    ensures |r| == |s| && forall i :: 0 <= i < |s| ==> r[i] == Canon(s[i])
  {
    seq(|s|, i requires 0 <= i < |s| => Canon(s[i]))
  }

  /** `t` is `s` with one more whitespace character, at an end or beside whitespace. */
  predicate Padded(s: string, k: nat, t: string)
  {
    && k <= |s| && |t| == |s| + 1
    && t == s[..k] + [t[k]] + s[k..] && IsSpace(t[k])
    && (k == 0 || k == |s| || IsSpace(s[k - 1]) || IsSpace(s[k]))
  }

  /** `t` differs from `s` in letter case and kind of whitespace, or in one padding character. */
  predicate OneVariation(s: string, t: string)
  {
    || CanonText(s) == CanonText(t)
    || (exists k | 0 <= k <= |s| :: Padded(s, k, t))
    || (exists k | 0 <= k <= |t| :: Padded(t, k, s))
  }

  /** `path` leads from `s` to `t`, one variation at a time. */
  predicate Varies(s: string, path: seq<string>, t: string)
    decreases |path|
  {
    if path == [] then s == t else OneVariation(s, path[0]) && Varies(path[0], path[1..], t)
  }

  ghost predicate Alike(s: string, t: string) { exists path :: Varies(s, path, t) }

  lemma FeedSnoc(scan: Scan, s: string, c: char)
    ensures FeedAll(scan, s + [c]) == Feed(FeedAll(scan, s), c)
  {
    assert (s + [c])[..|s|] == s;
  }

  lemma {:induction false} FeedConcat(scan: Scan, u: string, v: string)
    ensures FeedAll(scan, u + v) == FeedAll(FeedAll(scan, u), v)
    decreases |v|
  {
    if v == [] {
      assert u + v == u;
    } else {
      assert (u + v)[..|u + v| - 1] == u + v[..|v| - 1];
      FeedConcat(scan, u, v[..|v| - 1]);
    }
  }

  lemma {:induction false} WordsOfTrimStart(s: string)
    ensures Words(TrimStart(s)) == Words(s)
    decreases |s|
  {
    if s != [] && IsSpace(s[0]) {
      FeedConcat(Scan([], false), s[..1], s[1..]);
      assert s[..1] + s[1..] == s;
      WordsOfTrimStart(s[1..]);
    }
  }

  lemma {:induction false} WordsOfTrimEnd(s: string)
    ensures Words(TrimEnd(s)) == Words(s)
    decreases |s|
  {
    if s != [] && IsSpace(s[|s| - 1]) {
      WordsOfTrimEnd(s[..|s| - 1]);
    }
  }

  lemma {:induction false} LowerTrimStart(s: string)
    ensures LowerText(TrimStart(s)) == TrimStart(LowerText(s))
    decreases |s|
  {
    if s != [] && IsSpace(s[0]) {
      LowerTrimStart(s[1..]);
      assert LowerText(s)[1..] == LowerText(s[1..]);
    }
  }

  lemma {:induction false} LowerTrimEnd(s: string)
    ensures LowerText(TrimEnd(s)) == TrimEnd(LowerText(s))
    decreases |s|
  {
    if s != [] && IsSpace(s[|s| - 1]) {
      LowerTrimEnd(s[..|s| - 1]);
      assert LowerText(s)[..|s| - 1] == LowerText(s[..|s| - 1]);
    }
  }

  lemma {:induction false} ScanOfCanon(s: string)
    ensures FeedAll(Scan([], false), LowerText(s)) == FeedAll(Scan([], false), CanonText(s))
    decreases |s|
  {
    if s != [] {
      var n := |s| - 1;
      ScanOfCanon(s[..n]);
      assert LowerText(s)[..n] == LowerText(s[..n]);
      assert CanonText(s)[..n] == CanonText(s[..n]);
    }
  }

  /** The outer trim is subsumed by the split, and the kind of whitespace is not seen. */
  lemma NormalForm(s: string)
    ensures Normalize(s) == Join(Words(CanonText(s)))
  {
    LowerTrimEnd(TrimStart(s));
    LowerTrimStart(s);
    WordsOfTrimEnd(TrimStart(LowerText(s)));
    WordsOfTrimStart(LowerText(s));
    ScanOfCanon(s);
  }

  /** Whitespace fed where the scan is between words, before whitespace, or last, is not seen. */
  lemma ExtraSpaceUnseen(scan: Scan, w: char, v: string)
    requires IsSpace(w)
    requires !scan.open || v == [] || IsSpace(v[0])
    ensures FeedAll(scan, v).words == FeedAll(Feed(scan, w), v).words
  {
    if v != [] && IsSpace(v[0]) {
      FeedConcat(scan, v[..1], v[1..]);
      FeedConcat(Feed(scan, w), v[..1], v[1..]);
      assert v[..1] + v[1..] == v && v[..1][..0] == [];
      assert FeedAll(scan, v[..1]) == FeedAll(Feed(scan, w), v[..1]);
    }
  }

  lemma SpaceBetweenUnseen(u: string, w: char, v: string)
    requires IsSpace(w)
    requires u == [] || IsSpace(u[|u| - 1]) || v == [] || IsSpace(v[0])
    ensures Words(u + v) == Words((u + [w]) + v)
  {
    var start := Scan([], false);
    FeedConcat(start, u, v);
    FeedConcat(start, u + [w], v);
    FeedSnoc(start, u, w);
    ExtraSpaceUnseen(FeedAll(start, u), w, v);
  }

  lemma PaddedSameWords(s: string, k: nat, t: string)
    requires Padded(s, k, t)
    ensures Words(CanonText(s)) == Words(CanonText(t))
  {
    var u, v := CanonText(s[..k]), CanonText(s[k..]);
    assert CanonText(s) == u + v;
    assert CanonText(t) == (u + [' ']) + v;
    SpaceBetweenUnseen(u, ' ', v);
  }

  lemma OneVariationSameNormal(s: string, t: string)
    requires OneVariation(s, t)
    ensures Normalize(s) == Normalize(t)
  {
    NormalForm(s);
    NormalForm(t);
    if CanonText(s) == CanonText(t) {
    } else if exists k | 0 <= k <= |s| :: Padded(s, k, t) {
      var k :| 0 <= k <= |s| && Padded(s, k, t);
      PaddedSameWords(s, k, t);
    } else {
      var k :| 0 <= k <= |t| && Padded(t, k, s);
      PaddedSameWords(t, k, s);
    }
  }

  lemma {:induction false} VariesSameNormal(s: string, path: seq<string>, t: string)
    requires Varies(s, path, t)
    ensures Normalize(s) == Normalize(t)
    decreases |path|
  {
    if path != [] {
      OneVariationSameNormal(s, path[0]);
      VariesSameNormal(path[0], path[1..], t);
    }
  }

  // ----- idempotence -----

  predicate GoodWord(w: string)
  {
    w != [] && forall i :: 0 <= i < |w| ==> !IsSpace(w[i]) && Canon(w[i]) == w[i]
  }

  predicate GoodWords(words: seq<string>) { forall i :: 0 <= i < |words| ==> GoodWord(words[i]) }

  lemma {:induction false} WordsAreGood(s: string)
    requires forall i :: 0 <= i < |s| ==> Canon(s[i]) == s[i]
    ensures GoodWords(FeedAll(Scan([], false), s).words)
    decreases |s|
  {
    if s != [] {
      WordsAreGood(s[..|s| - 1]);
    }
  }

  lemma {:induction false} FeedWord(words: seq<string>, w: string)
    requires GoodWord(w)
    ensures FeedAll(Scan(words, false), w) == Scan(words + [w], true)
    decreases |w|
  {
    var n := |w| - 1;
    if n == 0 {
      assert w[..n] == [] && [w[n]] == w;
    } else {
      FeedWord(words, w[..n]);
      assert w[..n] + [w[n]] == w;
      assert (words + [w[..n]])[|words| := w] == words + [w];
    }
  }

  lemma FeedNextWord(text: string, words: seq<string>, w: string)
    requires FeedAll(Scan([], false), text) == Scan(words, true) && GoodWord(w)
    ensures FeedAll(Scan([], false), text + " " + w) == Scan(words + [w], true)
  {
    FeedConcat(Scan([], false), text + " ", w);
    FeedSnoc(Scan([], false), text, ' ');
    FeedWord(words, w);
  }

  lemma {:induction false} ScanOfJoin(words: seq<string>)
    requires GoodWords(words) && words != []
    ensures FeedAll(Scan([], false), Join(words)) == Scan(words, true)
    decreases |words|
  {
    var n := |words| - 1;
    if n == 0 {
      FeedWord([], words[0]);
      assert [] + [words[0]] == words;
    } else {
      ScanOfJoin(words[..n]);
      FeedNextWord(Join(words[..n]), words[..n], words[n]);
      assert words[..n] + [words[n]] == words;
    }
  }

  lemma {:induction false} JoinIsCanon(words: seq<string>)
    requires GoodWords(words)
    ensures CanonText(Join(words)) == Join(words)
    decreases |words|
  {
    if |words| > 1 {
      JoinIsCanon(words[..|words| - 1]);
    }
  }

  lemma NormalizeIdempotent(s: string)
    ensures Normalize(Normalize(s)) == Normalize(s)
  {
    var words := Words(CanonText(s));
    NormalForm(s);
    NormalForm(Normalize(s));
    WordsAreGood(CanonText(s));
    JoinIsCanon(words);
    if words != [] {
      ScanOfJoin(words);
    }
  }

  // ----- normal forms are equal exactly for respellings -----

  lemma {:induction false} VariesConcat(r: string, p: seq<string>, s: string, q: seq<string>, t: string)
    requires Varies(r, p, s) && Varies(s, q, t)
    ensures Varies(r, p + q, t)
    decreases |p|
  {
    if p == [] {
      assert p + q == q;
    } else {
      VariesConcat(p[0], p[1..], s, q, t);
      assert (p + q)[1..] == p[1..] + q;
    }
  }

  lemma {:induction false} VariesBack(s: string, path: seq<string>, t: string) returns (back: seq<string>)
    requires Varies(s, path, t)
    ensures Varies(t, back, s)
    decreases |path|
  {
    if path == [] {
      back := [];
    } else {
      back := VariesBack(path[0], path[1..], t);
      OneVariationBack(s, path[0]);
      assert [s][1..] == [];
      assert Varies(path[0], [s], s);
      VariesConcat(t, back, path[0], [s], s);
      back := back + [s];
    }
  }

  lemma OneVariationBack(s: string, t: string)
    requires OneVariation(s, t)
    ensures OneVariation(t, s)
  {
  }

  /** Text no whitespace of which could be taken out as padding, read from its start. */
  predicate NoPadding(s: string)
  {
    forall i :: 0 <= i < |s| && IsSpace(s[i]) ==> i > 0 && !IsSpace(s[i - 1])
  }

  lemma JoinGrows(words: seq<string>, c: char)
    requires words != []
    ensures Join(words[|words| - 1 := words[|words| - 1] + [c]]) == Join(words) + [c]
  {
    var n := |words| - 1;
    var grown := words[n := words[n] + [c]];
    assert grown[..n] == words[..n];
  }

  /** The text a scan stands for, with the space it has seen after a finished word. */
  function Shown(scan: Scan): string
  {
    Join(scan.words) + (if scan.open || scan.words == [] then "" else " ")
  }

  lemma ShownGrows(scan: Scan, c: char)
    requires if scan.words == [] then !scan.open && !IsSpace(c) else IsSpace(c) ==> scan.open
    ensures Feed(scan, c).words != [] && Feed(scan, c).open == !IsSpace(c)
    ensures Shown(Feed(scan, c)) == Shown(scan) + [if IsSpace(c) then ' ' else c]
  {
    if !IsSpace(c) {
      if scan.open {
        JoinGrows(scan.words, c);
      } else {
        assert (scan.words + [[c]])[..|scan.words|] == scan.words;
      }
    }
  }

  /** The scan of `text` has lost nothing of it. */
  predicate Faithful(text: string)
  {
    var scan := FeedAll(Scan([], false), text);
    && scan.open == (text != [] && !IsSpace(text[|text| - 1]))
    && (text != [] <==> scan.words != [])
    && Shown(scan) == text
  }

  lemma FaithfulGrows(text: string, c: char)
    requires Faithful(text) && Canon(c) == c
    requires IsSpace(c) ==> text != [] && !IsSpace(text[|text| - 1])
    ensures Faithful(text + [c])
  {
    FeedSnoc(Scan([], false), text, c);
    ShownGrows(FeedAll(Scan([], false), text), c);
  }

  lemma {:induction false} UnpaddedIsFaithful(text: string, n: nat)
    requires NoPadding(text) && n <= |text| && CanonText(text) == text
    ensures Faithful(text[..n])
    decreases n
  {
    if n > 0 {
      var m := n - 1;
      UnpaddedIsFaithful(text, m);
      assert IsSpace(text[m]) ==> m > 0 && !IsSpace(text[m - 1]);
      assert CanonText(text)[m] == text[m];
      FaithfulGrows(text[..m], text[m]);
      assert text[..m] + [text[m]] == text[..n];
    }
  }

  /** Every text is a respelling of its normal form. */
  lemma {:induction false} PathToNormal(s: string) returns (path: seq<string>)
    ensures Varies(s, path, Normalize(s))
    decreases |s|
  {
    if k: nat :| k < |s| && Padded(s[..k] + s[k + 1..], k, s) {
      var t := s[..k] + s[k + 1..];
      assert OneVariation(s, t);
      OneVariationSameNormal(s, t);
      path := PathToNormal(t);
      path := [t] + path;
      assert path[1..] == path[1..];
    } else {
      forall i | 0 <= i < |s| && IsSpace(s[i]) ensures 0 < i < |s| - 1 && !IsSpace(s[i - 1]) {
        assert s == s[..i] + [s[i]] + s[i + 1..];
        assert !Padded(s[..i] + s[i + 1..], i, s);
      }
      UnpaddedIsNormal(s);
      path := [Normalize(s)];
      assert path[1..] == [];
    }
  }

  lemma CanonTwice(s: string)
    ensures CanonText(CanonText(s)) == CanonText(s)
  {
  }

  lemma CanonKeepsSpaces(s: string)
    ensures forall i :: 0 <= i < |s| ==> IsSpace(CanonText(s)[i]) == IsSpace(s[i])
    ensures NoPadding(s) ==> NoPadding(CanonText(s))
  {
  }

  lemma UnpaddedIsNormal(s: string)
    requires NoPadding(s) && (s == [] || !IsSpace(s[|s| - 1]))
    ensures OneVariation(s, Normalize(s))
  {
    var text := CanonText(s);
    assert Join(Words(text)) == text by {
      CanonTwice(s);
      CanonKeepsSpaces(s);
      UnpaddedIsFaithful(text, |text|);
      assert text[..|text|] == text;
      FaithfulJoin(text);
    }
    NormalForm(s);
    CanonTwice(s);
  }

  lemma FaithfulJoin(text: string)
    requires Faithful(text) && (text == [] || !IsSpace(text[|text| - 1]))
    ensures Join(Words(text)) == text
  {
  }

  /** Normalisation identifies two texts exactly when one is reached from the other by changing
      letter case, kind of whitespace, and outer or repeated whitespace. */
  lemma NormalizeDecidesAlike(s: string, t: string)
    ensures Normalize(s) == Normalize(t) <==> Alike(s, t)
  {
    if Alike(s, t) {
      var path :| Varies(s, path, t);
      VariesSameNormal(s, path, t);
    }
    if Normalize(s) == Normalize(t) {
      var p := PathToNormal(s);
      var q := PathToNormal(t);
      q := VariesBack(t, q, Normalize(t));
      VariesConcat(s, p, Normalize(s), q, t);
    }
  }

  // ----- the verdict -----

  lemma MultisetWithout<T>(s: seq<T>, i: nat)
    requires i < |s|
    ensures multiset(s[..i] + s[i + 1..]) == multiset(s) - multiset{s[i]}
  {
    assert s == s[..i] + [s[i]] + s[i + 1..];
  }

  lemma {:induction false} CountSimilarWithout(norm: string, recent: seq<string>, i: nat)
    requires i < |recent|
    ensures CountSimilar(norm, recent) ==
      CountSimilar(norm, recent[..i] + recent[i + 1..]) + Hit(norm, recent[i])
  {
    var rest := recent[..i] + recent[i + 1..];
    if i == 0 {
      assert rest == recent[1..];
    } else {
      CountSimilarWithout(norm, recent[1..], i - 1);
      assert rest[1..] == recent[1..][..i - 1] + recent[1..][i..];
    }
  }

  lemma PlaceOf<T>(s: seq<T>, x: T) returns (i: nat)
    requires x in multiset(s)
    ensures i < |s| && s[i] == x
  {
    i :| i < |s| && s[i] == x;
  }

  lemma FirstTaken<T>(s: seq<T>)
    requires s != []
    ensures multiset(s[1..]) == multiset(s) - multiset{s[0]}
  {
    assert s == [s[0]] + s[1..];
  }

  /** Two collections in different orders still agree once one occurrence is taken from each. */
  lemma TakeOne<T>(xs: seq<T>, ys: seq<T>) returns (i: nat)
    requires multiset(xs) == multiset(ys) && xs != []
    ensures i < |ys| && ys[i] == xs[0]
    ensures multiset(xs[1..]) == multiset(ys[..i] + ys[i + 1..])
  {
    assert xs[0] in multiset(xs);
    i := PlaceOf(ys, xs[0]);
    MultisetWithout(ys, i);
    FirstTaken(xs);
  }

  /** The cluster count depends only on which names occur and how often. */
  lemma {:induction false} CountSimilarPermuted(norm: string, xs: seq<string>, ys: seq<string>)
    requires multiset(xs) == multiset(ys)
    ensures CountSimilar(norm, xs) == CountSimilar(norm, ys)
    decreases |xs|
  {
    if xs == [] {
      assert |multiset(ys)| == |ys|;
    } else {
      var i := TakeOne(xs, ys);
      CountSimilarWithout(norm, ys, i);
      CountSimilarPermuted(norm, xs[1..], ys[..i] + ys[i + 1..]);
    }
  }

  ghost predicate AllAlike(xs: seq<string>, ys: seq<string>)
  {
    |xs| == |ys| && forall i :: 0 <= i < |xs| ==> Alike(xs[i], ys[i])
  }

  lemma {:induction false} CountSimilarRespelled(norm: string, xs: seq<string>, ys: seq<string>)
    requires AllAlike(xs, ys)
    ensures CountSimilar(norm, xs) == CountSimilar(norm, ys)
    decreases |xs|
  {
    if xs != [] {
      AlikeSameHit(norm, xs[0], ys[0]);
      CountSimilarRespelled(norm, xs[1..], ys[1..]);
    }
  }

  lemma AlikeSameHit(norm: string, s: string, t: string)
    requires Alike(s, t)
    ensures Hit(norm, s) == Hit(norm, t)
  {
    NormalizeDecidesAlike(s, t);
  }

  /** Verdict and reason are the same for every spelling of the name, every reordering of the
      recent names, and every spelling of each of them. */
  lemma AssessNameInvariant(name: string, name': string,
                            recent: seq<string>, shuffled: seq<string>, recent': seq<string>)
    requires Alike(name, name')
    requires multiset(recent) == multiset(shuffled) && AllAlike(shuffled, recent')
    ensures AssessName(name, recent) == AssessName(name', recent')
  {
    NormalizeDecidesAlike(name, name');
    CountSimilarPermuted(Normalize(name), recent, shuffled);
    CountSimilarRespelled(Normalize(name), shuffled, recent');
  }
}
