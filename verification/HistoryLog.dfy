/** The private-message archive: an append-only log of framed records, its scanning reader, and
    the plaintext lines it is mirrored as. JSON encoding and at-rest sealing are parameters. */
module HistoryLog {
  import opened Options

  newtype byte = b: int | 0 <= b < 256

  type bytes = seq<byte>

  const U32 := 0x1_0000_0000

  datatype Record = Record(flag: byte, payload: bytes)

  // ----- framing -----

  /** The `k` low base-256 digits of a number, least significant first. */
  function ToLe(n: nat, k: nat): (b: bytes)
    ensures |b| == k
  {
    if k == 0 then [] else [(n % 256) as byte] + ToLe(n / 256, k - 1)
  }

  function FromLe(b: bytes): nat
  {
    if b == [] then 0 else b[0] as int + 256 * FromLe(b[1..])
  }

  function Power(k: nat): nat { if k == 0 then 1 else 256 * Power(k - 1) }

  lemma {:induction false} FromLeBound(b: bytes)
    ensures FromLe(b) < Power(|b|)
    decreases |b|
  {
    if b != [] { FromLeBound(b[1..]); }
  }

  lemma {:induction false} FromToLe(n: nat, k: nat)
    requires n < Power(k)
    ensures FromLe(ToLe(n, k)) == n
    decreases k
  {
    if k > 0 {
      FromToLe(n / 256, k - 1);
      assert ToLe(n, k)[1..] == ToLe(n / 256, k - 1);
    }
  }

  lemma DigitOff(digit: byte, high: nat)
    ensures (digit as int + 256 * high) % 256 == digit as int
    ensures (digit as int + 256 * high) / 256 == high
  {
  }

  lemma {:induction false} ToFromLe(b: bytes)
    ensures ToLe(FromLe(b), |b|) == b
    decreases |b|
  {
    if b != [] {
      ToFromLe(b[1..]);
      DigitOff(b[0], FromLe(b[1..]));
      assert b == [b[0]] + b[1..];
    }
  }

  lemma FourDigits()
    ensures Power(4) == U32
  {
    assert Power(1) == 256 && Power(2) == 65536 && Power(3) == 16777216;
  }

  /** The payload length announced by the record at `i`. */
  function LengthAt(data: bytes, i: nat): nat
    requires i + 5 <= |data|
  {
    FromLe(data[i + 1..i + 5])
  }

  /** One record as flag, length and payload; the length is cut to 32 bits. */
  function Frame(r: Record): bytes { [r.flag] + ToLe(|r.payload| % U32, 4) + r.payload }

  function Frames(records: seq<Record>): bytes
  {
    if records == [] then [] else Frame(records[0]) + Frames(records[1..])
  }

  function Announced(data: bytes): nat
    requires |data| >= 5
  {
    LengthAt(data, 0)
  }

  /** Where the record at `i` ends, if the file goes on that far. */
  function EndAt(data: bytes, i: nat): (next: nat)
    requires i + 5 <= |data|
    ensures next >= i + 5
  {
    i + 5 + LengthAt(data, i)
  }

  function RecordAt(data: bytes, i: nat): Record
    requires i + 5 <= |data| && EndAt(data, i) <= |data|
  {
    Record(data[i], data[i + 5..EndAt(data, i)])
  }

  predicate HasRecord(data: bytes) { |data| >= 5 && EndAt(data, 0) <= |data| }

  function First(data: bytes): Record
    requires HasRecord(data)
  {
    RecordAt(data, 0)
  }

  function Rest(data: bytes): (r: bytes)
    requires HasRecord(data)
    ensures |r| < |data|
  {
    data[EndAt(data, 0)..]
  }

  /** The whole records from position `i` on, and nothing of a torn one after them. */
  function ParseFrom(data: bytes, i: nat): seq<Record>
    requires i <= |data|
    decreases |data| - i
  {
    if i + 5 > |data| || EndAt(data, i) > |data| then []
    else [RecordAt(data, i)] + ParseFrom(data, EndAt(data, i))
  }

  function Parse(data: bytes): seq<Record> { ParseFrom(data, 0) }

  lemma Onwards<T>(a: seq<T>, b: seq<T>, c: seq<T>)
    ensures a + (b + c) == (a + b) + c
  {
  }

  method ReadRecords(data: bytes) returns (records: seq<Record>)
    ensures records == Parse(data)
  {
    records := [];
    var i := 0;
    while i + 5 <= |data|
      invariant 0 <= i <= |data|
      invariant Parse(data) == records + ParseFrom(data, i)
    {
      var flag := data[i];
      var len := LengthAt(data, i);
      i := i + 5;
      if i + len > |data| { return; }
      Onwards(records, [RecordAt(data, i - 5)], ParseFrom(data, i + len));
      records := records + [Record(flag, data[i..i + len])];
      i := i + len;
    }
  }

  lemma SliceOfRest(data: bytes, i: nat, j: nat, k: nat)
    requires j <= k && i + k <= |data|
    ensures data[i..][j..k] == data[i + j..i + k]
  {
  }

  lemma EndShift(data: bytes, i: nat, j: nat)
    requires i + j + 5 <= |data|
    ensures i + EndAt(data[i..], j) == EndAt(data, i + j)
  {
    SliceOfRest(data, i, j + 1, j + 5);
  }

  lemma RecordShift(data: bytes, i: nat, j: nat)
    requires i + j + 5 <= |data| && EndAt(data, i + j) <= |data|
    ensures i + EndAt(data[i..], j) == EndAt(data, i + j)
    ensures RecordAt(data[i..], j) == RecordAt(data, i + j)
  {
    EndShift(data, i, j);
    SliceOfRest(data, i, j + 5, EndAt(data[i..], j));
  }

  /** Where the scan is does not matter to what it reads from there on. */
  lemma {:induction false} ParseShift(data: bytes, i: nat, j: nat)
    requires i + j <= |data|
    ensures ParseFrom(data[i..], j) == ParseFrom(data, i + j)
    decreases |data| - i - j
  {
    if i + j + 5 <= |data| {
      EndShift(data, i, j);
      if EndAt(data, i + j) <= |data| {
        RecordShift(data, i, j);
        ParseShift(data, i, EndAt(data[i..], j));
      }
    }
  }

  /** Parsing reads the first record, if it is whole, and then the rest. */
  lemma ParseHead(data: bytes)
    ensures Parse(data) == if HasRecord(data) then [First(data)] + Parse(Rest(data)) else []
  {
    if HasRecord(data) {
      ParseShift(data, EndAt(data, 0), 0);
    }
  }

  // ----- the reader inverts the framing -----

  predicate Fits(r: Record) { |r.payload| < U32 }

  predicate AllFit(records: seq<Record>) { forall i | 0 <= i < |records| :: Fits(records[i]) }

  lemma FrameHead(r: Record, rest: bytes)
    ensures |Frame(r) + rest| >= 5 && (Frame(r) + rest)[0] == r.flag
    ensures Announced(Frame(r) + rest) == |r.payload| % U32
  {
    var n := |r.payload| % U32;
    assert (Frame(r) + rest)[1..5] == ToLe(n, 4);
    FourDigits();
    FromToLe(n, 4);
  }

  lemma SameLength(data: bytes, other: bytes)
    requires |data| >= 5 && |other| >= 5 && forall k | 0 <= k < 5 :: data[k] == other[k]
    ensures Announced(data) == Announced(other)
  {
    assert data[1..5] == other[1..5];
  }

  lemma ParseFrameThen(r: Record, rest: bytes)
    requires Fits(r)
    ensures Parse(Frame(r) + rest) == [r] + Parse(rest)
  {
    var data := Frame(r) + rest;
    FrameHead(r, rest);
    ParseHead(data);
    assert data[5..5 + |r.payload|] == r.payload;
    assert data[5 + |r.payload|..] == rest;
  }

  lemma Regroup(a: bytes, b: bytes, c: bytes)
    ensures (a + b) + c == a + (b + c)
  {
  }

  lemma FramesHead(records: seq<Record>, rest: bytes)
    requires records != []
    ensures Frames(records) + rest == Frame(records[0]) + (Frames(records[1..]) + rest)
  {
    Regroup(Frame(records[0]), Frames(records[1..]), rest);
  }

  lemma ConsThen(records: seq<Record>, more: seq<Record>)
    requires records != []
    ensures [records[0]] + (records[1..] + more) == records + more
  {
  }

  lemma {:induction false} ParseFramesThen(records: seq<Record>, rest: bytes)
    requires AllFit(records)
    ensures Parse(Frames(records) + rest) == records + Parse(rest)
  {
    if records == [] {
      assert Frames(records) + rest == rest;
    } else {
      var later := Frames(records[1..]) + rest;
      assert Fits(records[0]);
      FramesHead(records, rest);
      ParseFrameThen(records[0], later);
      ParseFramesThen(records[1..], rest);
      ConsThen(records, Parse(rest));
    }
  }

  /** Reading back any framed records gives them again. */
  lemma ParseInvertsFrames(records: seq<Record>)
    requires AllFit(records)
    ensures Parse(Frames(records)) == records
  {
    ParseFramesThen(records, []);
    assert Frames(records) + [] == Frames(records);
  }

  /** No proper beginning of a frame holds a record. */
  lemma PartOfFrame(r: Record, n: nat)
    requires Fits(r) && n < |Frame(r)|
    ensures Parse(Frame(r)[..n]) == []
  {
    FrameHead(r, []);
    assert Frame(r) + [] == Frame(r);
    ParseHead(Frame(r)[..n]);
    if n >= 5 { SameLength(Frame(r)[..n], Frame(r)); }
  }

  lemma FramesSplit(records: seq<Record>, k: nat)
    requires 0 < k <= |records|
    ensures records[..k] == [records[0]] + records[1..][..k - 1]
    ensures Frames(records[..k]) == Frame(records[0]) + Frames(records[1..][..k - 1])
  {
    assert records[..k][1..] == records[1..][..k - 1];
  }

  /** A cut inside the first record leaves none. */
  lemma CutInFirst(records: seq<Record>, n: nat)
    requires records != [] && Fits(records[0]) && n < |Frame(records[0])|
    ensures Parse(Frames(records)[..n]) == []
    ensures Frames(records[..1]) == Frame(records[0])
  {
    assert Frames(records)[..n] == Frame(records[0])[..n];
    PartOfFrame(records[0], n);
    FramesSplit(records, 1);
    assert Frame(records[0]) + [] == Frame(records[0]);
  }

  /** A cut after the first record is a cut of the others. */
  lemma CutLater(records: seq<Record>, n: nat)
    requires records != [] && Fits(records[0]) && |Frame(records[0])| <= n <= |Frames(records)|
    ensures n - |Frame(records[0])| <= |Frames(records[1..])|
    ensures Parse(Frames(records)[..n]) ==
      [records[0]] + Parse(Frames(records[1..])[..n - |Frame(records[0])|])
  {
    var m := n - |Frame(records[0])|;
    assert Frames(records)[..n] == Frame(records[0]) + Frames(records[1..])[..m];
    ParseFrameThen(records[0], Frames(records[1..])[..m]);
  }

  /** Cutting an archive anywhere leaves the longest run of whole records. */
  lemma {:induction false} TruncatedArchive(records: seq<Record>, n: nat) returns (k: nat)
    requires AllFit(records) && n <= |Frames(records)|
    ensures k <= |records| && Parse(Frames(records)[..n]) == records[..k]
    ensures |Frames(records[..k])| <= n
    ensures k < |records| ==> n < |Frames(records[..k + 1])|
  {
    if records == [] {
      k := 0;
    } else {
      assert Fits(records[0]);
      if n < |Frame(records[0])| {
        k := 0;
        CutInFirst(records, n);
      } else {
        CutLater(records, n);
        var j := TruncatedArchive(records[1..], n - |Frame(records[0])|);
        k := j + 1;
        FramesSplit(records, k);
        if k < |records| { FramesSplit(records, k + 1); }
      }
    }
  }

  lemma HeaderDigits(data: bytes)
    requires |data| >= 5
    ensures Announced(data) < U32 && ToLe(Announced(data), 4) == data[1..5]
  {
    FourDigits();
    FromLeBound(data[1..5]);
    ToFromLe(data[1..5]);
  }

  lemma Pieces(data: bytes, m: nat)
    requires 5 <= m <= |data|
    ensures [data[0]] + data[1..5] + data[5..m] == data[..m]
  {
    assert [data[0]] + data[1..5] == data[..5];
  }

  /** The bytes of the first record are its frame. */
  lemma FirstFramed(data: bytes)
    requires HasRecord(data)
    ensures Fits(First(data)) && Frame(First(data)) == data[..EndAt(data, 0)]
  {
    HeaderDigits(data);
    assert |First(data).payload| == Announced(data);
    Pieces(data, EndAt(data, 0));
  }

  lemma FirstReframes(data: bytes)
    requires HasRecord(data)
    ensures Fits(First(data)) && data == Frame(First(data)) + Rest(data)
  {
    FirstFramed(data);
    var n := EndAt(data, 0);
    assert data == data[..n] + data[n..];
  }

  /** On arbitrary bytes: what is read, framed again, is a prefix of the input, and what follows
      it holds no whole record. */
  lemma {:induction false} ParseReframes(data: bytes) returns (tail: bytes)
    ensures data == Frames(Parse(data)) + tail && Parse(tail) == []
    ensures AllFit(Parse(data))
    decreases |data|
  {
    if HasRecord(data) {
      FirstReframes(data);
      tail := ParseReframes(Rest(data));
      ParseHead(data);
      assert Parse(data)[1..] == Parse(Rest(data));
      Regroup(Frame(First(data)), Frames(Parse(Rest(data))), tail);
    } else {
      tail := data;
      ParseHead(data);
    }
  }

  /** The 32-bit length is exactly what limits the reader: framed records come back as they were
      if and only if each payload is shorter than 2^32 bytes. */
  lemma ParseInvertsIffAllFit(records: seq<Record>)
    ensures Parse(Frames(records)) == records <==> AllFit(records)
  {
    if AllFit(records) {
      ParseInvertsFrames(records);
    }
    var tail := ParseReframes(Frames(records));
  }

  // ----- appending -----

  lemma AppendKeepsFirst(data: bytes, more: bytes)
    requires HasRecord(data)
    ensures HasRecord(data + more) && First(data + more) == First(data)
    ensures Rest(data + more) == Rest(data) + more
  {
    var end := EndAt(data, 0);
    SameLength(data + more, data);
    assert (data + more)[5..end] == data[5..end];
    assert (data + more)[end..] == data[end..] + more;
  }

  /** Whatever is appended, the records already read keep their place. */
  lemma {:induction false} AppendKeepsEarlier(data: bytes, more: bytes)
    ensures Parse(data) <= Parse(data + more)
    decreases |data|
  {
    ParseHead(data);
    if HasRecord(data) {
      AppendKeepsFirst(data, more);
      ParseHead(data + more);
      AppendKeepsEarlier(Rest(data), more);
    }
  }

  /** A file with no torn record at its end. */
  predicate Intact(data: bytes) { Frames(Parse(data)) == data }

  lemma {:induction false} FramesConcat(xs: seq<Record>, ys: seq<Record>)
    ensures Frames(xs + ys) == Frames(xs) + Frames(ys)
  {
    if xs == [] {
      assert xs + ys == ys;
    } else {
      assert (xs + ys)[1..] == xs[1..] + ys;
      FramesConcat(xs[1..], ys);
    }
  }

  /** What follows the whole records of a file is read on together with what is appended to it. */
  lemma AppendReads(data: bytes, tail: bytes, more: bytes)
    requires data == Frames(Parse(data)) + tail
    ensures Parse(data + more) == Parse(data) + Parse(tail + more)
    ensures Intact(data) <==> tail == []
  {
    var tail' := ParseReframes(data);
    Regroup(Frames(Parse(data)), tail, more);
    ParseFramesThen(Parse(data), tail + more);
  }

  /** Appending a record to an intact file adds it and keeps the file intact. */
  lemma AppendToIntact(data: bytes, r: Record)
    requires Intact(data) && Fits(r)
    ensures Parse(data + Frame(r)) == Parse(data) + [r]
    ensures Intact(data + Frame(r))
  {
    assert data + [] == data && [] + Frame(r) == Frame(r);
    AppendReads(data, [], Frame(r));
    ParseFrameThen(r, []);
    assert Frame(r) + [] == Frame(r);
    FramesConcat(Parse(data), [r]);
    assert [r][1..] == [];
  }

  /** Of one record: it is added, in a file left intact, if and only if the file was intact. */
  lemma AddsCleanlyIffIntact(data: bytes, r: Record)
    requires Fits(r)
    ensures Parse(data + Frame(r)) == Parse(data) + [r] && Intact(data + Frame(r)) <==> Intact(data)
  {
    if Intact(data) {
      AppendToIntact(data, r);
    }
    if Parse(data + Frame(r)) == Parse(data) + [r] && Intact(data + Frame(r)) {
      var tail := ParseReframes(data);
      FramesConcat(Parse(data), [r]);
      assert [r][1..] == [];
      assert |data + Frame(r)| == |Frames(Parse(data))| + |Frame(r)|;
    }
  }

  // A torn end lets at most one record of all be read back after it: one that repeats the torn
  // bytes over and over.

  /** A record read back right after `tail` begins, shifted by `tail`, with itself. */
  lemma ReadBackRepeats(tail: bytes, r: Record)
    requires Parse(tail + Frame(r)) == [r]
    ensures Fits(r) && Frame(r) <= tail + Frame(r)
  {
    var end := ParseReframes(tail + Frame(r));
    assert Fits([r][0]);
    assert [r][1..] == [];
    assert Frames([r]) == Frame(r);
  }

  lemma {:induction false} RepeatsAlike(tail: bytes, f: bytes, g: bytes, n: nat)
    requires tail != [] && f <= tail + f && g <= tail + g && n <= |f| && n <= |g|
    ensures f[..n] == g[..n]
    decreases n
  {
    if n > 0 {
      var m := n - 1;
      RepeatsAlike(tail, f, g, m);
      assert f[m] == (tail + f)[m] && g[m] == (tail + g)[m];
      if m >= |tail| {
        assert f[m - |tail|] == f[..m][m - |tail|] && g[m - |tail|] == g[..m][m - |tail|];
      }
      assert f[..n] == f[..m] + [f[m]] && g[..n] == g[..m] + [g[m]];
    }
  }

  lemma SameHeaderSameLength(r: Record, q: Record)
    requires Fits(r) && Fits(q) && Frame(r)[..5] == Frame(q)[..5]
    ensures |Frame(r)| == |Frame(q)|
  {
    FrameHead(r, []);
    FrameHead(q, []);
    assert Frame(r) + [] == Frame(r) && Frame(q) + [] == Frame(q);
    assert forall k | 0 <= k < 5 :: Frame(r)[k] == Frame(r)[..5][k] && Frame(q)[k] == Frame(q)[..5][k];
    SameLength(Frame(r), Frame(q));
  }

  lemma OneSurvives(tail: bytes, r: Record, q: Record)
    requires tail != [] && Parse(tail + Frame(r)) == [r] && Parse(tail + Frame(q)) == [q]
    ensures r == q
  {
    var f, g := Frame(r), Frame(q);
    ReadBackRepeats(tail, r);
    ReadBackRepeats(tail, q);
    RepeatsAlike(tail, f, g, 5);
    SameHeaderSameLength(r, q);
    RepeatsAlike(tail, f, g, |f|);
    assert f[..|f|] == f && g[..|g|] == g;
    assert [r] == [q];
  }

  lemma Cancel(a: seq<Record>, b: seq<Record>, c: seq<Record>)
    requires a + b == a + c
    ensures b == c
  {
    assert b == (a + b)[|a|..] && c == (a + c)[|a|..];
  }

  lemma AddedAfterTail(data: bytes, tail: bytes, r: Record)
    requires data == Frames(Parse(data)) + tail && Parse(data + Frame(r)) == Parse(data) + [r]
    ensures Parse(tail + Frame(r)) == [r]
  {
    AppendReads(data, tail, Frame(r));
    Cancel(Parse(data), [r], Parse(tail + Frame(r)));
  }

  lemma TornAddsOne(data: bytes, r: Record, q: Record)
    requires !Intact(data)
    requires Parse(data + Frame(r)) == Parse(data) + [r] && Parse(data + Frame(q)) == Parse(data) + [q]
    ensures r == q
  {
    var tail := ParseReframes(data);
    AddedAfterTail(data, tail, r);
    AddedAfterTail(data, tail, q);
    AppendReads(data, tail, []);
    OneSurvives(tail, r, q);
  }

  /** Of any two different records: each is added exactly, were it the one appended, if and only
      if the file is intact. */
  lemma BothAddIffIntact(data: bytes, r: Record, q: Record)
    requires Fits(r) && Fits(q) && r != q
    ensures
      Parse(data + Frame(r)) == Parse(data) + [r] && Parse(data + Frame(q)) == Parse(data) + [q]
      <==> Intact(data)
  {
    if Intact(data) {
      AppendToIntact(data, r);
      AppendToIntact(data, q);
    } else if Parse(data + Frame(r)) == Parse(data) + [r] && Parse(data + Frame(q)) == Parse(data) + [q] {
      TornAddsOne(data, r, q);
    }
  }

  /** Every record is added exactly if and only if the file has no torn end. */
  lemma AppendAddsIffIntact(data: bytes)
    ensures (forall r | Fits(r) :: Parse(data + Frame(r)) == Parse(data) + [r]) <==> Intact(data)
  {
    if Intact(data) {
      forall r | Fits(r) ensures Parse(data + Frame(r)) == Parse(data) + [r] {
        AppendToIntact(data, r);
      }
    } else {
      BothAddIffIntact(data, Record(0, []), Record(1, []));
      assert Fits(Record(0, [])) && Fits(Record(1, []));
    }
  }

  /** A write torn inside its payload swallows what is recorded next, as long as that is shorter
      than the bytes still missing: neither message is read. */
  lemma TornWriteLosesNext(q: Record, n: nat, r: Record)
    requires Fits(q) && 5 <= n && n + |Frame(r)| < |Frame(q)|
    ensures !Intact(Frame(q)[..n]) && Parse(Frame(q)[..n]) == []
    ensures Parse(Frame(q)[..n] + Frame(r)) == []
  {
    PartOfFrame(q, n);
    FrameHead(q, []);
    assert Frame(q) + [] == Frame(q);
    var data := Frame(q)[..n] + Frame(r);
    SameLength(data, Frame(q));
    ParseHead(data);
  }

  // ----- the tail the interface shows -----

  /** An undecoded record with its stable id, its index in the archive. */
  datatype RawEntry = RawEntry(id: nat, record: Record)

  function Tail(data: bytes, limit: nat): (r: seq<RawEntry>)
  {
    var records := Parse(data);
    var start := if |records| > limit then |records| - limit else 0;
    seq(|records| - start, i requires 0 <= i < |records| - start => RawEntry(start + i, records[start + i]))
  }

  /** An id shown before an append names the same record in every tail that shows it after. */
  lemma TailIdsAreStable(data: bytes, more: bytes, limit: nat, limit': nat, i: nat, j: nat)
    requires i < |Tail(data, limit)| && j < |Tail(data + more, limit')|
    requires Tail(data, limit)[i].id == Tail(data + more, limit')[j].id
    ensures Tail(data, limit)[i] == Tail(data + more, limit')[j]
  {
    AppendKeepsEarlier(data, more);
  }

  // ----- messages -----

  datatype Message = Message(group: nat, sender: nat, content: string, timestamp: int)

  /** JSON encoding and at-rest sealing, the latter with the nonce it draws. */
  datatype Codec = Codec(
    toJson: Message -> bytes,
    fromJson: bytes -> Option<Message>,
    seal: (bytes, nat) -> bytes,
    open: bytes -> Option<bytes>)

  const NEWLINE: byte := 10

  ghost predicate Lawful(c: Codec)
  {
    && (forall m :: c.fromJson(c.toJson(m)) == Some(m))
    && (forall m :: c.toJson(m) != [] && NEWLINE !in c.toJson(m))
    && (forall b, n :: c.open(c.seal(b, n)) == Some(b))
  }

  /** Messages of others are always sealed, one's own only if so configured. */
  function Encode(c: Codec, user: nat, atRest: bool, m: Message, nonce: nat): Record
  {
    if m.sender != user || atRest then Record(1, c.seal(c.toJson(m), nonce))
    else Record(0, c.toJson(m))
  }

  function Decode(c: Codec, r: Record): Option<Message>
  {
    if r.flag == 1 then
      (match c.open(r.payload) case Some(json) => c.fromJson(json) case None => None)
    else c.fromJson(r.payload)
  }

  function DecodeAll(c: Codec, records: seq<Record>): seq<Message>
  {
    if records == [] then []
    else
      (match Decode(c, records[0]) case Some(m) => [m] case None => [])
      + DecodeAll(c, records[1..])
  }

  function Load(c: Codec, data: bytes): seq<Message> { DecodeAll(c, Parse(data)) }

  lemma {:induction false} DecodeAllConcat(c: Codec, xs: seq<Record>, ys: seq<Record>)
    ensures DecodeAll(c, xs + ys) == DecodeAll(c, xs) + DecodeAll(c, ys)
  {
    if xs == [] {
      assert xs + ys == ys;
    } else {
      assert (xs + ys)[1..] == xs[1..] + ys;
      DecodeAllConcat(c, xs[1..], ys);
    }
  }

  lemma DecodeInvertsEncode(c: Codec, user: nat, atRest: bool, m: Message, nonce: nat)
    requires Lawful(c)
    ensures Decode(c, Encode(c, user, atRest, m, nonce)) == Some(m)
    ensures m.sender != user ==> Encode(c, user, atRest, m, nonce).flag == 1
  {
    assert c.fromJson(c.toJson(m)) == Some(m);
    assert c.open(c.seal(c.toJson(m), nonce)) == Some(c.toJson(m));
  }

  /** Recording a message in an intact archive adds it at the end of what loads. */
  lemma RecordedLoads(c: Codec, data: bytes, user: nat, atRest: bool, m: Message, nonce: nat)
    requires Lawful(c) && Intact(data) && Fits(Encode(c, user, atRest, m, nonce))
    ensures
      var next := data + Frame(Encode(c, user, atRest, m, nonce));
      Intact(next) && Load(c, next) == Load(c, data) + [m]
  {
    var r := Encode(c, user, atRest, m, nonce);
    AppendToIntact(data, r);
    DecodeAllConcat(c, Parse(data), [r]);
    DecodeInvertsEncode(c, user, atRest, m, nonce);
    assert [r][1..] == [];
  }

  /** Different messages, or one message under different nonces sealed differently, make different
      records. */
  lemma EncodeTellsApart(c: Codec, user: nat, atRest: bool, m: Message, m': Message, nonce: nat, nonce': nat)
    requires Lawful(c) && m != m'
    ensures Encode(c, user, atRest, m, nonce) != Encode(c, user, atRest, m', nonce')
  {
    DecodeInvertsEncode(c, user, atRest, m, nonce);
    DecodeInvertsEncode(c, user, atRest, m', nonce');
  }

  /** Of any two different messages: each, were it the one recorded, is read back as recorded, after
      everything read before, if and only if the archive is intact. */
  lemma RecordedIffIntact(c: Codec, data: bytes, user: nat, atRest: bool,
                          m: Message, nonce: nat, m': Message, nonce': nat)
    requires Lawful(c) && m != m'
    requires Fits(Encode(c, user, atRest, m, nonce)) && Fits(Encode(c, user, atRest, m', nonce'))
    ensures
      var r, r' := Encode(c, user, atRest, m, nonce), Encode(c, user, atRest, m', nonce');
      Parse(data + Frame(r)) == Parse(data) + [r] && Parse(data + Frame(r')) == Parse(data) + [r']
      <==> Intact(data)
  {
    EncodeTellsApart(c, user, atRest, m, m', nonce, nonce');
    BothAddIffIntact(data, Encode(c, user, atRest, m, nonce), Encode(c, user, atRest, m', nonce'));
  }

  /** The failing archive: the write of a longer message is cut inside its payload, a shorter one is
      recorded after it, and neither loads. */
  lemma TornArchiveLoadsNeither(c: Codec, user: nat, atRest: bool, long: Message, nonce: nat, n: nat,
                                short: Message, nonce': nat)
    requires Fits(Encode(c, user, atRest, long, nonce)) && 5 <= n
    requires n + |Frame(Encode(c, user, atRest, short, nonce'))| < |Frame(Encode(c, user, atRest, long, nonce))|
    ensures
      var torn := Frame(Encode(c, user, atRest, long, nonce))[..n];
      && !Intact(torn) && Load(c, torn) == []
      && Load(c, torn + Frame(Encode(c, user, atRest, short, nonce'))) == []
  {
    TornWriteLosesNext(Encode(c, user, atRest, long, nonce), n, Encode(c, user, atRest, short, nonce'));
  }

  // ----- the plaintext lines kept in the vault -----

  function Lines(c: Codec, messages: seq<Message>): bytes
  {
    if messages == [] then []
    else c.toJson(messages[0]) + [NEWLINE] + Lines(c, messages[1..])
  }

  function PlaintextJsonl(c: Codec, data: bytes): Option<bytes>
  {
    if Load(c, data) == [] then None else Some(Lines(c, Load(c, data)))
  }

  method WriteLines(c: Codec, messages: seq<Message>) returns (out: bytes)
    ensures out == Lines(c, messages)
  {
    out := [];
    assert messages[0..] == messages;
    for i := 0 to |messages|
      invariant Lines(c, messages) == out + Lines(c, messages[i..])
    {
      assert messages[i..][1..] == messages[i + 1..];
      Regroup(out, c.toJson(messages[i]) + [NEWLINE], Lines(c, messages[i + 1..]));
      out := out + (c.toJson(messages[i]) + [NEWLINE]);
    }
  }

  method WritePlaintext(c: Codec, data: bytes) returns (out: Option<bytes>)
    ensures out == PlaintextJsonl(c, data)
  {
    var records := ReadRecords(data);
    var messages := DecodeAll(c, records);
    if messages == [] { return None; }
    var lines := WriteLines(c, messages);
    out := Some(lines);
  }

  /** The position of the first newline, or the length. */
  function LineEnd(b: bytes): (n: nat)
    ensures n <= |b| && NEWLINE !in b[..n] && (n < |b| ==> b[n] == NEWLINE)
  {
    if b == [] || b[0] == NEWLINE then 0
    else
      var n := LineEnd(b[1..]);
      assert b[..n + 1] == [b[0]] + b[1..][..n];
      n + 1
  }

  /** The messages on the lines of a restored blob; blank and unreadable lines are passed over. */
  function Restored(c: Codec, b: bytes): seq<Message>
    decreases |b|
  {
    var n := LineEnd(b);
    var here := if FirstLine(c, b).Some? then [FirstLine(c, b).value] else [];
    if n < |b| then here + Restored(c, b[n + 1..]) else here
  }

  /** The file written on a restore, one record a message, with the nonces it draws. */
  function Archive(c: Codec, user: nat, atRest: bool, messages: seq<Message>, nonces: nat -> nat): seq<Record>
  {
    if messages == [] then []
    else
      var n := |messages| - 1;
      Archive(c, user, atRest, messages[..n], nonces)
      + [Encode(c, user, atRest, messages[n], nonces(n))]
  }

  lemma ArchiveGrows(c: Codec, user: nat, atRest: bool, messages: seq<Message>, m: Message, nonces: nat -> nat)
    ensures Frames(Archive(c, user, atRest, messages + [m], nonces)) ==
      Frames(Archive(c, user, atRest, messages, nonces))
      + Frame(Encode(c, user, atRest, m, nonces(|messages|)))
  {
    var r := Encode(c, user, atRest, m, nonces(|messages|));
    assert (messages + [m])[..|messages|] == messages;
    FramesConcat(Archive(c, user, atRest, messages, nonces), [r]);
    assert [r][1..] == [];
  }

  /** What the line at the start of `b` holds. */
  function FirstLine(c: Codec, b: bytes): Option<Message>
  {
    var line := b[..LineEnd(b)];
    if line == [] then None else c.fromJson(line)
  }

  function OneIf(m: Option<Message>): seq<Message> { if m.Some? then [m.value] else [] }

  lemma RestoredHere(c: Codec, b: bytes) returns (later: seq<Message>)
    ensures Restored(c, b) == OneIf(FirstLine(c, b)) + later
    ensures later == if LineEnd(b) < |b| then Restored(c, b[LineEnd(b) + 1..]) else []
  {
    later := if LineEnd(b) < |b| then Restored(c, b[LineEnd(b) + 1..]) else [];
  }

  lemma RestoredAdvance(c: Codec, all: seq<Message>, done: seq<Message>, b: bytes)
    requires all == done + Restored(c, b)
    ensures
      var done' := done + OneIf(FirstLine(c, b));
      all == done' + if LineEnd(b) < |b| then Restored(c, b[LineEnd(b) + 1..]) else []
  {
    var later := RestoredHere(c, b);
    Onwards(done, OneIf(FirstLine(c, b)), later);
  }

  /** One line of a restore: the messages archived so far, its own added if it holds one. */
  method RestoreLine(c: Codec, user: nat, atRest: bool, b: bytes, nonces: nat -> nat,
                     file: bytes, ghost done: seq<Message>, count: nat)
    returns (file': bytes, count': nat, next: nat)
    requires file == Frames(Archive(c, user, atRest, done, nonces)) && count == |done|
    ensures file' == Frames(Archive(c, user, atRest, done + OneIf(FirstLine(c, b)), nonces))
    ensures count' == |done + OneIf(FirstLine(c, b))| && next == LineEnd(b) + 1
  {
    next := LineEnd(b) + 1;
    var added := FirstLine(c, b);
    if added.None? {
      assert done + [] == done;
      return file, count, next;
    }
    ArchiveGrows(c, user, atRest, done, added.value, nonces);
    file' := file + Frame(Encode(c, user, atRest, added.value, nonces(count)));
    count' := count + 1;
  }

  method WriteFromJsonl(c: Codec, user: nat, atRest: bool, jsonl: bytes, nonces: nat -> nat)
    returns (file: bytes)
    ensures file == Frames(Archive(c, user, atRest, Restored(c, jsonl), nonces))
  {
    file := [];
    ghost var done: seq<Message> := [];
    var count, rest := 0, jsonl;
    ghost var all := Restored(c, jsonl);
    while true
      invariant count == |done|
      invariant all == done + Restored(c, rest)
      invariant file == Frames(Archive(c, user, atRest, done, nonces))
      decreases |rest|
    {
      var next;
      RestoredAdvance(c, all, done, rest);
      ghost var added := OneIf(FirstLine(c, rest));
      file, count, next := RestoreLine(c, user, atRest, rest, nonces, file, done, count);
      done := done + added;
      if next > |rest| { return; }
      rest := rest[next..];
    }
  }

  lemma {:induction false} LineThen(line: bytes, rest: bytes)
    requires NEWLINE !in line
    ensures LineEnd(line + [NEWLINE] + rest) == |line|
  {
    if line != [] {
      assert (line + [NEWLINE] + rest)[1..] == line[1..] + [NEWLINE] + rest;
      LineThen(line[1..], rest);
    }
  }

  lemma {:induction false} RestoredInvertsLines(c: Codec, messages: seq<Message>)
    requires Lawful(c)
    ensures Restored(c, Lines(c, messages)) == messages
  {
    if messages != [] {
      var line, rest := c.toJson(messages[0]), Lines(c, messages[1..]);
      var b := line + [NEWLINE] + rest;
      assert line != [] && NEWLINE !in line && c.fromJson(line) == Some(messages[0]);
      LineThen(line, rest);
      assert b[..|line|] == line && b[|line| + 1..] == rest;
      RestoredInvertsLines(c, messages[1..]);
    }
  }

  lemma {:induction false} ArchiveDecodes(c: Codec, user: nat, atRest: bool, messages: seq<Message>, nonces: nat -> nat)
    requires Lawful(c)
    ensures DecodeAll(c, Archive(c, user, atRest, messages, nonces)) == messages
    decreases |messages|
  {
    if messages != [] {
      var n := |messages| - 1;
      var earlier := Archive(c, user, atRest, messages[..n], nonces);
      var r := Encode(c, user, atRest, messages[n], nonces(n));
      ArchiveDecodes(c, user, atRest, messages[..n], nonces);
      DecodeAllConcat(c, earlier, [r]);
      DecodeInvertsEncode(c, user, atRest, messages[n], nonces(n));
      assert [r][1..] == [];
      assert messages == messages[..n] + [messages[n]];
    }
  }

  /** A restored archive loads the very messages the vault copy was made from, in order. */
  lemma RestoreRoundTrip(c: Codec, user: nat, atRest: bool, data: bytes, nonces: nat -> nat)
    requires Lawful(c) && Load(c, data) != []
    requires AllFit(Archive(c, user, atRest, Load(c, data), nonces))
    ensures
      var jsonl := PlaintextJsonl(c, data).value;
      var file := Frames(Archive(c, user, atRest, Restored(c, jsonl), nonces));
      Load(c, file) == Load(c, data) && Intact(file)
  {
    var messages := Load(c, data);
    var records := Archive(c, user, atRest, messages, nonces);
    RestoredInvertsLines(c, messages);
    ParseInvertsFrames(records);
    ArchiveDecodes(c, user, atRest, messages, nonces);
  }
}
