/** Background sync of the archives to the vault: writers append and mark, one flusher takes the
    marks and uploads, and every step may fall between any two others. */
module VaultSync {
  import opened Options
  import opened HistoryLog

  type UserId = nat
  type GroupId = nat

  /** What a flusher uploads for an archive, if anything. */
  type Snapshot = bytes -> Option<bytes>

  datatype Key = Key(user: UserId, group: GroupId)

  // ----- the state under the lock -----

  function Marked(groups: map<UserId, set<GroupId>>): set<Key>
  {
    set u, g | u in groups && g in groups[u] :: Key(u, g)
  }

  /** The vault once the archives of `keys` have been uploaded, those that have anything to upload. */
  function Uploaded(snap: Snapshot, files: map<Key, bytes>, vault: map<Key, bytes>, keys: set<Key>): map<Key, bytes>
  {
    map k | k in vault.Keys + keys && (k in vault || snap(Contents(files, k)).Some?) ::
      if k in keys && snap(Contents(files, k)).Some? then snap(Contents(files, k)).value else vault[k]
  }

  function Contents(files: map<Key, bytes>, key: Key): bytes { if key in files then files[key] else [] }

  lemma UploadedNext(snap: Snapshot, files: map<Key, bytes>, vault: map<Key, bytes>, keys: set<Key>, key: Key)
    ensures
      var was := Uploaded(snap, files, vault, keys);
      var blob := snap(Contents(files, key));
      Uploaded(snap, files, vault, keys + {key}) == if blob.Some? then was[key := blob.value] else was
  {
  }

  /** The inner loop of a flush: one user's groups, on top of what has been uploaded already. */
  method FlushUser(snap: Snapshot, files: map<Key, bytes>, ghost vault: map<Key, bytes>, ghost done: set<Key>,
                   user: UserId, marked: set<GroupId>, before: map<Key, bytes>) returns (after: map<Key, bytes>)
    requires before == Uploaded(snap, files, vault, done)
    ensures after == Uploaded(snap, files, vault, done + (set g | g in marked :: Key(user, g)))
  {
    after := before;
    var todo := marked;
    assert done + (set g | g in marked - todo :: Key(user, g)) == done;
    while todo != {}
      invariant todo <= marked
      invariant after == Uploaded(snap, files, vault, done + (set g | g in marked - todo :: Key(user, g)))
      decreases todo
    {
      var group :| group in todo;
      var key := Key(user, group);
      ghost var sofar := done + (set g | g in marked - todo :: Key(user, g));
      UploadedNext(snap, files, vault, sofar, key);
      var blob := snap(Contents(files, key));
      if blob.Some? { after := after[key := blob.value]; }
      todo := todo - {group};
      assert done + (set g | g in marked - todo :: Key(user, g)) == sofar + {key};
    }
    assert marked - todo == marked;
  }

  class Sync {
    var groups: map<UserId, set<GroupId>>
    var started: bool

    constructor ()
      ensures Marked(groups) == {} && !started
    {
      groups, started := map[], false;
    }

    method MarkGroup(key: Key)
      modifies this
      ensures Marked(groups) == Marked(old(groups)) + {key} && started == old(started)
    {
      var known := if key.user in groups then groups[key.user] else {};
      groups := groups[key.user := known + {key.group}];
      assert key == Key(key.user, key.group);
    }

    /** Whether the caller is the one to spawn the flusher. */
    method ClaimFlusher() returns (mine: bool)
      modifies this
      ensures mine == !old(started) && started && groups == old(groups)
    {
      if started { return false; }
      started := true;
      mine := true;
    }

    method TakeGroups() returns (taken: map<UserId, set<GroupId>>)
      modifies this
      ensures Marked(taken) == Marked(old(groups)) && Marked(groups) == {} && started == old(started)
    {
      taken := groups;
      groups := map[];
    }

    /** Takes the marks and uploads, user by user and group by group, what each archive has to
        upload; the answer is the vault afterwards. Each archive is read once, and `files` has what
        it holds at that moment. */
    method Flush(snap: Snapshot, files: map<Key, bytes>, vault: map<Key, bytes>) returns (after: map<Key, bytes>)
      modifies this
      ensures Marked(groups) == {} && started == old(started)
      ensures after == Uploaded(snap, files, vault, Marked(old(groups)))
    {
      var taken := TakeGroups();
      after := vault;
      var users := taken.Keys;
      ghost var done: set<Key> := {};
      while users != {}
        invariant users <= taken.Keys && Marked(groups) == {} && started == old(started)
        invariant done == set k | k in Marked(taken) && k.user !in users
        invariant after == Uploaded(snap, files, vault, done)
        decreases users
      {
        var user :| user in users;
        after := FlushUser(snap, files, vault, done, user, taken[user], after);
        done := done + (set g | g in taken[user] :: Key(user, g));
        users := users - {user};
      }
      assert done == Marked(taken);
    }
  }

  // ----- all interleavings -----

  /** A flusher between its taking the marks and its next tick: what it has yet to read, and the
      blob it is uploading. */
  datatype Flusher = Flusher(pending: set<Key>, upload: Option<(Key, bytes)>)

  datatype State = State(
    files: map<Key, bytes>,
    unmarked: multiset<Key>,
    dirty: set<Key>,
    started: bool,
    flushers: seq<Flusher>,
    vault: map<Key, bytes>,
    everMarked: set<Key>)

  /** One atomic step of some task. An append is followed, later, by its own mark. */
  datatype Op =
    | Append(key: Key, record: bytes)
    | MarkAppended(key: Key)
    | MarkLocal(key: Key)
    | SpawnFlusher
    | Take(flusher: nat)
    | Read(flusher: nat, key: Key)
    | Upload(flusher: nat)

  function FileOf(s: State, key: Key): bytes { Contents(s.files, key) }

  predicate Enabled(s: State, op: Op)
  {
    match op
    case MarkAppended(key) => key in s.unmarked
    case Take(i) => i < |s.flushers| && s.flushers[i].pending == {} && s.flushers[i].upload.None?
    case Read(i, key) => i < |s.flushers| && key in s.flushers[i].pending && s.flushers[i].upload.None?
    case Upload(i) => i < |s.flushers| && s.flushers[i].upload.Some?
    case _ => true
  }

  function Step(snap: Snapshot, s: State, op: Op): State
    requires Enabled(s, op)
  {
    match op
    case Append(key, record) =>
      s.(files := s.files[key := FileOf(s, key) + record], unmarked := s.unmarked + multiset{key})
    case MarkAppended(key) =>
      s.(unmarked := s.unmarked - multiset{key}, dirty := s.dirty + {key}, everMarked := s.everMarked + {key})
    case MarkLocal(key) =>
      s.(dirty := s.dirty + {key}, everMarked := s.everMarked + {key})
    case SpawnFlusher =>
      if s.started then s else s.(started := true, flushers := s.flushers + [Flusher({}, None)])
    case Take(i) => s.(dirty := {}, flushers := s.flushers[i := Flusher(s.dirty, None)])
    case Read(i, key) =>
      var upload := match snap(FileOf(s, key)) case Some(b) => Some((key, b)) case None => None;
      s.(flushers := s.flushers[i := Flusher(s.flushers[i].pending - {key}, upload)])
    case Upload(i) =>
      var (key, b) := s.flushers[i].upload.value;
      s.(vault := s.vault[key := b], flushers := s.flushers[i := s.flushers[i].(upload := None)])
  }

  predicate Possible(snap: Snapshot, s: State, ops: seq<Op>)
    decreases |ops|
  {
    ops == [] || (Enabled(s, ops[0]) && Possible(snap, Step(snap, s, ops[0]), ops[1..]))
  }

  function Run(snap: Snapshot, s: State, ops: seq<Op>): State
    requires Possible(snap, s, ops)
    decreases |ops|
  {
    if ops == [] then s else Run(snap, Step(snap, s, ops[0]), ops[1..])
  }

  /** A fresh start: any archives and any vault, nothing marked, no flusher. */
  predicate Fresh(s: State)
  {
    s.unmarked == multiset{} && s.dirty == {} && !s.started && s.flushers == [] && s.everMarked == {}
  }

  predicate Quiet(s: State)
  {
    && s.unmarked == multiset{} && s.dirty == {}
    && forall i | 0 <= i < |s.flushers| :: s.flushers[i] == Flusher({}, None)
  }

  // ----- agreement -----

  /** Somebody will still read this archive. */
  predicate Due(s: State, key: Key)
  {
    key in s.unmarked || key in s.dirty || (s.flushers != [] && key in s.flushers[0].pending)
  }

  /** The blob that is, or is about to be, in the vault. */
  function Latest(s: State, key: Key): Option<bytes>
  {
    if s.flushers != [] && s.flushers[0].upload.Some? && s.flushers[0].upload.value.0 == key then
      Some(s.flushers[0].upload.value.1)
    else if key in s.vault then Some(s.vault[key])
    else None
  }

  /** Nothing is lost for a key: it is due, or uploads nothing, or is up to date. */
  ghost predicate KeyInStep(snap: Snapshot, s: State, key: Key)
  {
    Due(s, key) || snap(FileOf(s, key)).None? || Latest(s, key) == snap(FileOf(s, key))
  }

  ghost predicate InStep(snap: Snapshot, s: State)
  {
    && |s.flushers| <= (if s.started then 1 else 0)
    && forall key | key in s.everMarked :: KeyInStep(snap, s, key)
  }

  lemma StepStaysInStep(snap: Snapshot, s: State, op: Op)
    requires InStep(snap, s) && Enabled(s, op)
    ensures InStep(snap, Step(snap, s, op))
  {
    var next := Step(snap, s, op);
    forall key | key in next.everMarked ensures KeyInStep(snap, next, key) {
      if op.Take? || op.Read? || op.Upload? {
        FlusherKeyInStep(snap, s, op, key);
      } else {
        WriterKeyInStep(snap, s, op, key);
      }
    }
  }

  lemma WriterKeyInStep(snap: Snapshot, s: State, op: Op, key: Key)
    requires InStep(snap, s) && Enabled(s, op) && key in Step(snap, s, op).everMarked
    requires op.Append? || op.MarkAppended? || op.MarkLocal? || op.SpawnFlusher?
    ensures KeyInStep(snap, Step(snap, s, op), key)
  {
  }

  lemma FlusherKeyInStep(snap: Snapshot, s: State, op: Op, key: Key)
    requires InStep(snap, s) && Enabled(s, op) && key in Step(snap, s, op).everMarked
    requires op.Take? || op.Read? || op.Upload?
    ensures KeyInStep(snap, Step(snap, s, op), key)
  {
    assert FileOf(Step(snap, s, op), key) == FileOf(s, key);
  }

  lemma {:induction false} RunStaysInStep(snap: Snapshot, s: State, ops: seq<Op>)
    requires InStep(snap, s) && Possible(snap, s, ops)
    ensures InStep(snap, Run(snap, s, ops))
    decreases |ops|
  {
    if ops != [] {
      StepStaysInStep(snap, s, ops[0]);
      RunStaysInStep(snap, Step(snap, s, ops[0]), ops[1..]);
    }
  }

  /** The whole archive as plaintext lines, if it loads anything. */
  function Plaintext(c: Codec): Snapshot { data => PlaintextJsonl(c, data) }

  /** Under any interleaving, once nothing is marked or under way, the vault copy of every marked
      archive is what a flusher would upload for it now. */
  lemma QuietIsUploaded(snap: Snapshot, s: State, ops: seq<Op>, key: Key)
    requires Fresh(s) && Possible(snap, s, ops) && Quiet(Run(snap, s, ops))
    requires key in Run(snap, s, ops).everMarked && snap(FileOf(Run(snap, s, ops), key)).Some?
    ensures
      var end := Run(snap, s, ops);
      key in end.vault && Some(end.vault[key]) == snap(FileOf(end, key))
  {
    RunStaysInStep(snap, s, ops);
  }

  /** That copy is the plaintext of the whole archive, and restoring it gives a file that loads the
      same messages in the same order. */
  lemma VaultAgreement(c: Codec, s: State, ops: seq<Op>, key: Key,
                       user: nat, atRest: bool, nonces: nat -> nat)
    requires Lawful(c) && Fresh(s) && Possible(Plaintext(c), s, ops) && Quiet(Run(Plaintext(c), s, ops))
    requires key in Run(Plaintext(c), s, ops).everMarked
    requires Load(c, FileOf(Run(Plaintext(c), s, ops), key)) != []
    requires AllFit(Archive(c, user, atRest, Load(c, FileOf(Run(Plaintext(c), s, ops), key)), nonces))
    ensures
      var end := Run(Plaintext(c), s, ops);
      var messages := Load(c, FileOf(end, key));
      && key in end.vault && end.vault[key] == Lines(c, messages)
      && Load(c, Frames(Archive(c, user, atRest, Restored(c, end.vault[key]), nonces))) == messages
  {
    var end := Run(Plaintext(c), s, ops);
    assert Plaintext(c)(FileOf(end, key)) == PlaintextJsonl(c, FileOf(end, key));
    QuietIsUploaded(Plaintext(c), s, ops, key);
    RestoreRoundTrip(c, user, atRest, FileOf(end, key), nonces);
  }

  /** However often it is asked for, there is never more than one flusher. */
  lemma OneFlusher(snap: Snapshot, s: State, ops: seq<Op>)
    requires Fresh(s) && Possible(snap, s, ops)
    ensures |Run(snap, s, ops).flushers| <= 1
  {
    RunStaysInStep(snap, s, ops);
  }

  // ----- why one flusher -----

  /** Spawning a flusher without looking at the flag. */
  function SpawnAnyway(s: State): State { s.(started := true, flushers := s.flushers + [Flusher({}, None)]) }

  const NOTHING := State(map[], multiset{}, {}, false, [], map[], {})

  lemma RunCons(snap: Snapshot, s: State, op: Op, rest: seq<Op>)
    requires Enabled(s, op) && Possible(snap, Step(snap, s, op), rest)
    ensures Possible(snap, s, [op] + rest) && Run(snap, s, [op] + rest) == Run(snap, Step(snap, s, op), rest)
  {
    assert ([op] + rest)[1..] == rest;
  }

  /** The first flusher takes and reads, and the second after another message has been appended. */
  function ReadsOf(key: Key, first: bytes, second: bytes, rest: seq<Op>): seq<Op>
  {
    [Append(key, first)] + ([MarkAppended(key)] + ([Take(0)] + ([Read(0, key)] +
    ([Append(key, second)] + ([MarkAppended(key)] + ([Take(1)] + ([Read(1, key)] + rest)))))))
  }

  lemma BothRead(snap: Snapshot, key: Key, first: bytes, second: bytes, rest: seq<Op>)
    requires snap(first).Some? && snap(first + second).Some?
    requires Possible(snap, Uploading(snap, key, first, second), rest)
    ensures
      var s := SpawnAnyway(SpawnAnyway(NOTHING));
      var ops := ReadsOf(key, first, second, rest);
      Possible(snap, s, ops) && Run(snap, s, ops) == Run(snap, Uploading(snap, key, first, second), rest)
  {
    var idle := Flusher({}, None);
    var due := Flusher({key}, None);
    var holds := Flusher({}, Some((key, snap(first).value)));
    var s0 := SpawnAnyway(SpawnAnyway(NOTHING));
    assert s0.flushers == [idle, idle];
    var s1 := Step(snap, s0, Append(key, first));
    assert [] + first == first;
    assert s1 == State(map[key := first], multiset{key}, {}, true, [idle, idle], map[], {});
    var s2 := Step(snap, s1, MarkAppended(key));
    assert s2 == State(map[key := first], multiset{}, {key}, true, [idle, idle], map[], {key});
    var s3 := Step(snap, s2, Take(0));
    assert s3 == State(map[key := first], multiset{}, {}, true, [due, idle], map[], {key});
    var s4 := Step(snap, s3, Read(0, key));
    assert s4 == State(map[key := first], multiset{}, {}, true, [holds, idle], map[], {key});
    var s5 := Step(snap, s4, Append(key, second));
    assert s5 == State(map[key := first + second], multiset{key}, {}, true, [holds, idle], map[], {key});
    var s6 := Step(snap, s5, MarkAppended(key));
    assert s6 == State(map[key := first + second], multiset{}, {key}, true, [holds, idle], map[], {key});
    var s7 := Step(snap, s6, Take(1));
    assert s7 == State(map[key := first + second], multiset{}, {}, true, [holds, due], map[], {key});
    var s8 := Step(snap, s7, Read(1, key));
    assert s8 == Uploading(snap, key, first, second);
    RunCons(snap, s7, Read(1, key), rest);
    RunCons(snap, s6, Take(1), [Read(1, key)] + rest);
    RunCons(snap, s5, MarkAppended(key), [Take(1)] + ([Read(1, key)] + rest));
    RunCons(snap, s4, Append(key, second), [MarkAppended(key)] + ([Take(1)] + ([Read(1, key)] + rest)));
    var tail := [Append(key, second)] + ([MarkAppended(key)] + ([Take(1)] + ([Read(1, key)] + rest)));
    RunCons(snap, s3, Read(0, key), tail);
    RunCons(snap, s2, Take(0), [Read(0, key)] + tail);
    RunCons(snap, s1, MarkAppended(key), [Take(0)] + ([Read(0, key)] + tail));
    RunCons(snap, s0, Append(key, first), [MarkAppended(key)] + ([Take(0)] + ([Read(0, key)] + tail)));
  }

  /** Both flushers hold what they read of the archive, the first of them less. */
  function Uploading(snap: Snapshot, key: Key, first: bytes, second: bytes): State
    requires snap(first).Some? && snap(first + second).Some?
  {
    State(map[key := first + second], multiset{}, {}, true,
          [Flusher({}, Some((key, snap(first).value))), Flusher({}, Some((key, snap(first + second).value)))],
          map[], {key})
  }

  lemma OlderLast(snap: Snapshot, key: Key, first: bytes, second: bytes)
    requires snap(first).Some? && snap(first + second).Some?
    ensures
      var s := Uploading(snap, key, first, second);
      var ops := [Upload(1)] + ([Upload(0)] + []);
      Possible(snap, s, ops) && Run(snap, s, ops) ==
        s.(flushers := [Flusher({}, None), Flusher({}, None)], vault := map[key := snap(first).value])
  {
    var s8 := Uploading(snap, key, first, second);
    var s9 := Step(snap, s8, Upload(1));
    assert s9.flushers == [s8.flushers[0], Flusher({}, None)];
    var s10 := Step(snap, s9, Upload(0));
    assert s10.flushers == [Flusher({}, None), Flusher({}, None)];
    assert s10.vault == map[key := snap(first).value];
    RunCons(snap, s9, Upload(0), []);
    RunCons(snap, s8, Upload(1), [Upload(0)] + []);
  }

  /** With two flushers spawned, from nothing, an older read can be uploaded last: then nothing is
      dirty or under way, and the vault stays behind an archive that nobody is going to read again. */
  lemma TwoFlushersLag(snap: Snapshot, key: Key, first: bytes, second: bytes)
    requires snap(first).Some? && snap(first + second).Some? && snap(first) != snap(first + second)
    ensures
      var s := SpawnAnyway(SpawnAnyway(NOTHING));
      exists ops :: Possible(snap, s, ops) && Quiet(Run(snap, s, ops))
        && key in Run(snap, s, ops).everMarked && FileOf(Run(snap, s, ops), key) == first + second
        && key in Run(snap, s, ops).vault && Some(Run(snap, s, ops).vault[key]) != snap(first + second)
  {
    var rest := [Upload(1)] + ([Upload(0)] + []);
    OlderLast(snap, key, first, second);
    BothRead(snap, key, first, second, rest);
    assert Possible(snap, SpawnAnyway(SpawnAnyway(NOTHING)), ReadsOf(key, first, second, rest));
  }
}
