/** The offline mailbox delivers private messages exactly once and in order, over whole runs. */
module Mailbox {
  import opened Options
  import opened Hub
  import opened Messaging

  // ----- what a device has got and what it has missed -----

  predicate PrivateTo(g: GroupId, m: ServerMessage)
  {
    m.PrivateMessage? && m.group == g
  }

  function PrivateOf(ms: seq<ServerMessage>, g: GroupId): seq<ServerMessage>
    decreases |ms|
  {
    if ms == [] then []
    else
      var n := |ms| - 1;
      PrivateOf(ms[..n], g) + (if PrivateTo(g, ms[n]) then [ms[n]] else [])
  }

  /** The private messages of the group put on the device's streams, oldest stream first. */
  function Streamed(channels: seq<Channel>, d: DeviceId, g: GroupId): seq<ServerMessage>
    decreases |channels|
  {
    if channels == [] then []
    else
      var n := |channels| - 1;
      Streamed(channels[..n], d, g) + (if channels[n].device == d then PrivateOf(channels[n].sent, g) else [])
  }

  /** How many private messages of the group were refused by a full or abandoned buffer. */
  function Refused(channels: seq<Channel>, d: DeviceId, g: GroupId): nat
    decreases |channels|
  {
    if channels == [] then 0
    else
      var n := |channels| - 1;
      Refused(channels[..n], d, g) + (if channels[n].device == d then |PrivateOf(channels[n].lost, g)| else 0)
  }

  function Waiting(s: Svc, d: DeviceId, g: GroupId): seq<ServerMessage>
  {
    PrivateOf(RebuiltAll(InboxOf(s.inbox, d)), g)
  }

  function Got(s: Svc, d: DeviceId, g: GroupId): seq<ServerMessage>
  {
    Streamed(s.hub.channels, d, g) + Waiting(s, d, g)
  }

  function Missed(s: Svc, d: DeviceId, g: GroupId): nat
  {
    Refused(s.hub.channels, d, g)
  }

  /** The messages other devices sent to the group, as accepted by the server, in order. */
  function FromOthers(s: Svc, ops: seq<Op>, d: DeviceId, g: GroupId): seq<ServerMessage>
    requires Possible(s, ops)
    decreases |ops|
  {
    if ops == [] then [] else FromOther(s, ops[0], d, g) + FromOthers(Step(s, ops[0]), ops[1..], d, g)
  }

  function FromOther(s: Svc, op: Op, d: DeviceId, g: GroupId): seq<ServerMessage>
    requires Enabled(s, op)
  {
    if op.SendPrivate? && op.group == g && op.device != d && Accepted(s, op.device, g, op.row)
    then [Live(g, s.owners[op.device], op.row)]
    else []
  }

  /** A device of a member, subscribed whenever connected, its mailbox drained when it connected. */
  predicate Tracked(s: Svc, d: DeviceId, g: GroupId)
  {
    && MemberDevice(s, g, d)
    && (d in s.hub.deviceSubs ==> Lists(s.hub, d, g) && Waiting(s, d, g) == [])
  }

  /** Through the run the device is not revoked and its user remains a member of the group. */
  predicate Remains(s: Svc, ops: seq<Op>, d: DeviceId, g: GroupId)
    requires Possible(s, ops)
    decreases |ops|
  {
    MemberDevice(s, g, d) && (ops == [] || Remains(Step(s, ops[0]), ops[1..], d, g))
  }

  // ----- filtering -----

  lemma {:induction false} PrivateOfAll(ms: seq<ServerMessage>, more: seq<ServerMessage>, g: GroupId)
    ensures PrivateOf(ms + more, g) == PrivateOf(ms, g) + PrivateOf(more, g)
    decreases |more|
  {
    if more == [] {
      assert ms + more == ms;
    } else {
      var n := |more| - 1;
      assert (ms + more)[..|ms| + n] == ms + more[..n];
      PrivateOfAll(ms, more[..n], g);
    }
  }

  lemma PrivateOfSnoc(ms: seq<ServerMessage>, m: ServerMessage, g: GroupId)
    ensures PrivateOf(ms + [m], g) == PrivateOf(ms, g) + (if PrivateTo(g, m) then [m] else [])
  {
    assert (ms + [m])[..|ms|] == ms;
  }

  lemma RebuiltSnoc(items: seq<InboxItem>, item: InboxItem)
    ensures RebuiltAll(items + [item])
         == RebuiltAll(items) + (if Rebuilt(item).Some? then [Rebuilt(item).value] else [])
  {
    assert (items + [item])[..|items|] == items;
  }

  /** Queuing an item adds to what is waiting exactly the private message it stands for. */
  lemma WaitingSnoc(items: seq<InboxItem>, item: InboxItem, g: GroupId)
    ensures PrivateOf(RebuiltAll(items + [item]), g) == PrivateOf(RebuiltAll(items), g) +
      (if Rebuilt(item).Some? && PrivateTo(g, Rebuilt(item).value) then [Rebuilt(item).value] else [])
  {
    RebuiltSnoc(items, item);
    if Rebuilt(item).Some? {
      PrivateOfSnoc(RebuiltAll(items), Rebuilt(item).value, g);
    } else {
      assert RebuiltAll(items) + [] == RebuiltAll(items);
    }
  }

  // ----- steps that carry no private message of the group -----

  predicate QuietChannel(c: Channel, after: Channel, g: GroupId)
  {
    && after.device == c.device
    && PrivateOf(after.sent, g) == PrivateOf(c.sent, g)
    && PrivateOf(after.lost, g) == PrivateOf(c.lost, g)
  }

  ghost predicate Quiet(h: HubState, next: HubState, g: GroupId)
  {
    && |next.channels| == |h.channels|
    && forall c | 0 <= c < |h.channels| :: QuietChannel(h.channels[c], next.channels[c], g)
  }

  lemma TrySendQuiet(c: Channel, m: ServerMessage, g: GroupId)
    requires !PrivateTo(g, m)
    ensures QuietChannel(c, TrySend(c, m), g)
  {
    PrivateOfSnoc(c.sent, m, g);
    PrivateOfSnoc(c.lost, m, g);
  }

  lemma DeliveredQuiet(h: HubState, f: GroupId, m: ServerMessage, exclude: Option<DeviceId>, g: GroupId)
    requires !PrivateTo(g, m)
    ensures Quiet(h, Delivered(h, f, m, exclude), g)
  {
    var next := Delivered(h, f, m, exclude);
    forall c | 0 <= c < |h.channels| ensures QuietChannel(h.channels[c], next.channels[c], g) {
      TrySendQuiet(h.channels[c], m, g);
    }
  }

  lemma SentToQuiet(h: HubState, d: DeviceId, m: ServerMessage, g: GroupId)
    requires !PrivateTo(g, m)
    ensures Quiet(h, SentTo(h, d, m), g)
  {
    if d in h.deviceSubs && h.deviceSubs[d] < |h.channels| {
      TrySendQuiet(h.channels[h.deviceSubs[d]], m, g);
    }
  }

  lemma {:induction false} AllSentToQuiet(h: HubState, d: DeviceId, ms: seq<ServerMessage>, g: GroupId)
    requires forall i | 0 <= i < |ms| :: !PrivateTo(g, ms[i])
    ensures Quiet(h, AllSentTo(h, d, ms), g)
    decreases |ms|
  {
    if ms != [] {
      AllSentToQuiet(h, d, ms[..|ms| - 1], g);
      SentToQuiet(AllSentTo(h, d, ms[..|ms| - 1]), d, ms[|ms| - 1], g);
    }
  }

  lemma {:induction false} LeavesQuiet(
      h: HubState, d: DeviceId, left: seq<GroupId>, last: map<GroupId, Roster>, g: GroupId)
    requires forall i | 0 <= i < |left| :: left[i] in last && d in last[left[i]]
    ensures Quiet(h, LeavesPublished(h, d, left, last), g)
    decreases |left|
  {
    if left != [] {
      var n := |left| - 1;
      LeavesQuiet(h, d, left[..n], last, g);
      DeliveredQuiet(LeavesPublished(h, d, left[..n], last), left[n],
                     VoiceParticipant(left[n], d, last[left[n]][d], false), None, g);
    }
  }

  lemma {:induction false} BurstPlain(f: GroupId, r: Roster, order: seq<DeviceId>, d: DeviceId)
    requires forall i | 0 <= i < |order| :: order[i] in r
    ensures forall i | 0 <= i < |Burst(f, r, order, d)| :: Burst(f, r, order, d)[i].VoiceParticipant?
    decreases |order|
  {
    if order != [] {
      BurstPlain(f, r, order[..|order| - 1], d);
    }
  }

  lemma VoiceQuiet(s: Svc, op: Op, g: GroupId)
    requires Enabled(s, op) && op.UpdateVoice?
    ensures Quiet(s.hub, Step(s, op).hub, g)
  {
    var h, d, f := s.hub, op.device, op.group;
    var st := StateFor(s.owners[d], op.flags);
    if op.joined {
      var joined := VoiceJoined(Subscribed(h, d, f), f, d, st);
      var event := VoiceParticipant(f, d, st, true);
      DeliveredQuiet(joined, f, event, None, g);
      BurstPlain(f, RosterOf(h, f)[d := st], op.order, d);
      AllSentToQuiet(Delivered(joined, f, event, None), d, Burst(f, RosterOf(h, f)[d := st], op.order, d), g);
    } else {
      DeliveredQuiet(VoiceLeft(Subscribed(h, d, f), f, d), f, VoiceParticipant(f, d, st, false), None, g);
    }
  }

  lemma CloseQuiet(h: HubState, c: Sender, left: seq<GroupId>, g: GroupId)
    requires c < |h.channels| && ListsRosters(h, h.channels[c].device, left)
    ensures Quiet(h, Closed(h, c, left), g)
  {
    var d := h.channels[c].device;
    LeavesQuiet(VoiceDropped(Deregistered(Hung(h, c), d), d), d, left, h.voice, g);
  }

  lemma StepQuiet(s: Svc, op: Op, g: GroupId)
    requires Enabled(s, op) && !op.Open? && !(op.SendPrivate? && op.group == g)
    ensures Quiet(s.hub, Step(s, op).hub, g)
  {
    if op.Close? {
      CloseQuiet(s.hub, op.sender, op.left, g);
    } else if op.UpdateVoice? {
      VoiceQuiet(s, op, g);
    } else if op.SendPrivate? {
      if Accepted(s, op.device, op.group, op.row) {
        DeliveredQuiet(s.hub, op.group, Live(op.group, s.owners[op.device], op.row), Some(op.device), g);
      }
    } else if op.Publish? {
      DeliveredQuiet(s.hub, op.group, op.message, op.exclude, g);
    } else if op.Direct? {
      SentToQuiet(s.hub, op.device, op.message, g);
    }
  }

  lemma {:induction false} QuietCounts(cs: seq<Channel>, after: seq<Channel>, d: DeviceId, g: GroupId)
    requires |after| == |cs|
    requires forall c | 0 <= c < |cs| :: after[c].device == cs[c].device
    requires forall c | 0 <= c < |cs| && cs[c].device == d :: QuietChannel(cs[c], after[c], g)
    ensures Streamed(after, d, g) == Streamed(cs, d, g) && Refused(after, d, g) == Refused(cs, d, g)
    decreases |cs|
  {
    if cs != [] {
      QuietCounts(cs[..|cs| - 1], after[..|cs| - 1], d, g);
    }
  }

  // ----- one more message on the device's last stream -----

  /** `c` is the device's last stream, and only on it may something have changed. */
  ghost predicate OnlyLast(cs: seq<Channel>, after: seq<Channel>, d: DeviceId, g: GroupId, c: nat)
  {
    && |after| == |cs| && c < |cs| && cs[c].device == d
    && (forall e | 0 <= e < |cs| :: after[e].device == cs[e].device)
    && (forall e | 0 <= e < |cs| && cs[e].device == d && e != c :: QuietChannel(cs[e], after[e], g))
    && (forall e | c < e < |cs| :: cs[e].device != d)
  }

  lemma {:induction false} LastStream(cs: seq<Channel>, d: DeviceId, g: GroupId, c: nat)
    requires c < |cs| && cs[c].device == d
    requires forall e | c < e < |cs| :: cs[e].device != d
    ensures Streamed(cs, d, g) == Streamed(cs[..c], d, g) + PrivateOf(cs[c].sent, g)
    ensures Refused(cs, d, g) == Refused(cs[..c], d, g) + |PrivateOf(cs[c].lost, g)|
    decreases |cs|
  {
    var n := |cs| - 1;
    if c < n {
      LastStream(cs[..n], d, g, c);
      assert cs[..n][..c] == cs[..c];
    }
  }

  lemma BeforeLast(cs: seq<Channel>, after: seq<Channel>, d: DeviceId, g: GroupId, c: nat)
    requires OnlyLast(cs, after, d, g, c)
    ensures Streamed(cs, d, g) == Streamed(cs[..c], d, g) + PrivateOf(cs[c].sent, g)
    ensures Streamed(after, d, g) == Streamed(cs[..c], d, g) + PrivateOf(after[c].sent, g)
    ensures Refused(after, d, g) - |PrivateOf(after[c].lost, g)| == Refused(cs, d, g) - |PrivateOf(cs[c].lost, g)|
  {
    LastStream(cs, d, g, c);
    LastStream(after, d, g, c);
    QuietCounts(cs[..c], after[..c], d, g);
  }

  lemma OneMore(cs: seq<Channel>, after: seq<Channel>, d: DeviceId, g: GroupId, c: nat, m: ServerMessage)
    requires OnlyLast(cs, after, d, g, c) && PrivateTo(g, m) && after[c] == TrySend(cs[c], m)
    ensures
      || (Streamed(after, d, g) == Streamed(cs, d, g) + [m] && Refused(after, d, g) == Refused(cs, d, g))
      || (Streamed(after, d, g) == Streamed(cs, d, g) && Refused(after, d, g) == Refused(cs, d, g) + 1)
  {
    BeforeLast(cs, after, d, g, c);
    PrivateOfSnoc(cs[c].sent, m, g);
    PrivateOfSnoc(cs[c].lost, m, g);
  }

  // ----- opening a stream drains the mailbox into it -----

  function Fit(n: nat): nat { if n <= CAPACITY then n else CAPACITY }

  /** A stream on which so many messages have been put, and nothing taken off. */
  function Filled(d: DeviceId, ms: seq<ServerMessage>): Channel
  {
    Channel(d, true, ms[..Fit(|ms|)], ms[Fit(|ms|)..], Fit(|ms|))
  }

  lemma FilledNext(d: DeviceId, ms: seq<ServerMessage>)
    requires ms != []
    ensures TrySend(Filled(d, ms[..|ms| - 1]), ms[|ms| - 1]) == Filled(d, ms)
  {
    var n := |ms| - 1;
    if n < CAPACITY {
      assert ms[..n][..n] + [ms[n]] == ms[..n + 1] && ms[..n][n..] == ms[n + 1..];
    } else {
      assert ms[..n][..CAPACITY] == ms[..CAPACITY] && ms[..n][CAPACITY..] + [ms[n]] == ms[CAPACITY..];
    }
  }

  /** A fresh stream takes its first messages up to its capacity, in order, and loses the others. */
  lemma {:induction false} FirstFit(h: HubState, d: DeviceId, ms: seq<ServerMessage>)
    requires d in h.deviceSubs && h.deviceSubs[d] < |h.channels|
    requires h.channels[h.deviceSubs[d]] == Filled(d, [])
    ensures AllSentTo(h, d, ms) == h.(channels := h.channels[h.deviceSubs[d] := Filled(d, ms)])
    decreases |ms|
  {
    var c := h.deviceSubs[d];
    if ms == [] {
      assert h.channels[c := h.channels[c]] == h.channels;
    } else {
      var n := |ms| - 1;
      FirstFit(h, d, ms[..n]);
      FilledNext(d, ms);
      assert h.channels[c := Filled(d, ms[..n])][c := Filled(d, ms)] == h.channels[c := Filled(d, ms)];
    }
  }

  /** Opening moves the whole mailbox onto the new stream, except what exceeds its buffer. */
  lemma OpeningDrains(s: Svc, d: DeviceId, groups: seq<GroupId>)
    ensures
      var ms := RebuiltAll(InboxOf(s.inbox, d));
      var fit := if |ms| <= CAPACITY then |ms| else CAPACITY;
      var next := Opened(s, d, groups);
      && next.hub.channels == s.hub.channels + [Channel(d, true, ms[..fit], ms[fit..], fit)]
      && InboxOf(next.inbox, d) == []
      && next.hub.deviceGroups == s.hub.deviceGroups[d := groups]
  {
    var h := Registered(s.hub, d, groups);
    assert h.channels[h.deviceSubs[d]] == Filled(d, []);
    FirstFit(h, d, RebuiltAll(InboxOf(s.inbox, d)));
  }

  lemma StreamedSnoc(cs: seq<Channel>, c: Channel, d: DeviceId, g: GroupId)
    ensures Streamed(cs + [c], d, g) == Streamed(cs, d, g) + (if c.device == d then PrivateOf(c.sent, g) else [])
    ensures Refused(cs + [c], d, g) == Refused(cs, d, g) + (if c.device == d then |PrivateOf(c.lost, g)| else 0)
  {
    assert (cs + [c])[..|cs|] == cs;
  }

  // ----- subsequences -----

  /** `a` is `b` with some elements left out. */
  predicate Subsequence<T(==)>(a: seq<T>, b: seq<T>)
    decreases |b|
  {
    if a == [] then true
    else if b == [] then false
    else
      var n, k := |a| - 1, |b| - 1;
      Subsequence(a, b[..k]) || (a[n] == b[k] && Subsequence(a[..n], b[..k]))
  }

  lemma {:induction false} SubsequenceSelf<T>(a: seq<T>)
    ensures Subsequence(a, a)
    decreases |a|
  {
    if a != [] { SubsequenceSelf(a[..|a| - 1]); }
  }

  lemma {:induction false} SubsequenceAppend<T>(a: seq<T>, b: seq<T>, t: seq<T>)
    requires Subsequence(a, b)
    ensures Subsequence(a + t, b + t)
    decreases |t|
  {
    if t == [] {
      assert a + t == a && b + t == b;
    } else {
      var n := |t| - 1;
      SubsequenceAppend(a, b, t[..n]);
      assert (a + t)[..|a| + n] == a + t[..n] && (b + t)[..|b| + n] == b + t[..n];
    }
  }

  lemma {:induction false} SubsequencePrefix<T>(a: seq<T>, t: seq<T>)
    ensures Subsequence(a, a + t)
    decreases |t|
  {
    if t == [] {
      assert a + t == a;
      SubsequenceSelf(a);
    } else {
      SubsequencePrefix(a, t[..|t| - 1]);
      assert (a + t)[..|a + t| - 1] == a + t[..|t| - 1];
    }
  }

  lemma {:induction false} SubsequenceChain<T>(a: seq<T>, b: seq<T>, c: seq<T>)
    requires Subsequence(a, b) && Subsequence(b, c)
    ensures Subsequence(a, c)
    decreases |c|
  {
    if a != [] {
      assert b != [] && c != [];
      var n, k, l := |a| - 1, |b| - 1, |c| - 1;
      if Subsequence(b, c[..l]) {
        SubsequenceChain(a, b, c[..l]);
      } else if Subsequence(a, b[..k]) {
        SubsequenceChain(a, b[..k], c[..l]);
      } else {
        SubsequenceChain(a[..n], b[..k], c[..l]);
      }
    }
  }

  lemma {:induction false} SubsequenceLength<T>(a: seq<T>, b: seq<T>)
    requires Subsequence(a, b)
    ensures |a| <= |b|
    ensures |a| == |b| ==> a == b
    decreases |b|
  {
    if a != [] {
      var n, k := |a| - 1, |b| - 1;
      if Subsequence(a, b[..k]) {
        SubsequenceLength(a, b[..k]);
      } else {
        SubsequenceLength(a[..n], b[..k]);
        if |a| == |b| { assert a == a[..n] + [a[n]] && b == b[..k] + [b[k]]; }
      }
    }
  }

  // ----- every step -----

  /** What one step does to what the device has got: the message is added at the end or refused;
      opening a stream keeps the order and accounts for every message that did not fit. */
  predicate Accounted(s: Svc, next: Svc, d: DeviceId, g: GroupId, sent: seq<ServerMessage>)
  {
    && Subsequence(Got(next, d, g), Got(s, d, g) + sent)
    && |Got(next, d, g)| + Missed(next, d, g) == |Got(s, d, g)| + Missed(s, d, g) + |sent|
    && Missed(s, d, g) <= Missed(next, d, g)
  }

  lemma SameAccounted(s: Svc, next: Svc, d: DeviceId, g: GroupId)
    requires Got(next, d, g) == Got(s, d, g) && Missed(next, d, g) == Missed(s, d, g)
    ensures Accounted(s, next, d, g, [])
  {
    assert Got(s, d, g) + [] == Got(s, d, g);
    SubsequenceSelf(Got(s, d, g));
  }

  /** The message is the last thing the device has got, or it is the one more that was refused;
      whatever the device had before, it still has. */
  predicate AddedOrRefused(s: Svc, next: Svc, d: DeviceId, g: GroupId, m: ServerMessage)
  {
    || (Got(next, d, g) == Got(s, d, g) + [m] && Missed(next, d, g) == Missed(s, d, g))
    || (Got(next, d, g) == Got(s, d, g) && Missed(next, d, g) == Missed(s, d, g) + 1)
  }

  lemma AddedAccounted(s: Svc, next: Svc, d: DeviceId, g: GroupId, m: ServerMessage)
    requires AddedOrRefused(s, next, d, g, m)
    ensures Accounted(s, next, d, g, [m])
  {
    SubsequenceSelf(Got(s, d, g) + [m]);
    SubsequencePrefix(Got(s, d, g), [m]);
  }

  lemma StreamAdds(s: Svc, next: Svc, d: DeviceId, g: GroupId, m: ServerMessage)
    requires
      var cs, after := s.hub.channels, next.hub.channels;
      || (Streamed(after, d, g) == Streamed(cs, d, g) + [m] && Refused(after, d, g) == Refused(cs, d, g))
      || (Streamed(after, d, g) == Streamed(cs, d, g) && Refused(after, d, g) == Refused(cs, d, g) + 1)
    requires Waiting(s, d, g) == Waiting(next, d, g) == []
    ensures AddedOrRefused(s, next, d, g, m)
  {
  }

  lemma QueueAdds(s: Svc, next: Svc, d: DeviceId, g: GroupId, m: ServerMessage)
    requires
      var cs, after := s.hub.channels, next.hub.channels;
      Streamed(after, d, g) == Streamed(cs, d, g) && Refused(after, d, g) == Refused(cs, d, g)
    requires Waiting(next, d, g) == Waiting(s, d, g) + [m]
    ensures Got(next, d, g) == Got(s, d, g) + [m] && Missed(next, d, g) == Missed(s, d, g)
  {
  }

  lemma QuietAccounted(s: Svc, next: Svc, d: DeviceId, g: GroupId)
    requires Quiet(s.hub, next.hub, g) && Waiting(next, d, g) == Waiting(s, d, g)
    ensures Accounted(s, next, d, g, [])
  {
    QuietCounts(s.hub.channels, next.hub.channels, d, g);
    SameAccounted(s, next, d, g);
  }

  lemma MailWaits(items: seq<InboxItem>, f: GroupId, user: UserId, row: Row, g: GroupId)
    ensures PrivateOf(RebuiltAll(items + [Mail(f, user, row)]), g)
         == PrivateOf(RebuiltAll(items), g) + (if f == g then [Live(f, user, row)] else [])
  {
    WaitingSnoc(items, Mail(f, user, row), g);
    MailRebuildsLive(f, user, row);
  }

  /** A send adds to what is waiting for a device exactly when it is away, and then the message itself. */
  lemma MailQueued(s: Svc, sender: DeviceId, f: GroupId, row: Row, d: DeviceId, g: GroupId)
    requires sender in s.owners
    ensures Waiting(PrivateSent(s, sender, f, row), d, g) == Waiting(s, d, g) +
      (if Accepted(s, sender, f, row) && f == g && d in Offline(s, f, sender)
       then [Live(f, s.owners[sender], row)] else [])
  {
    var next := PrivateSent(s, sender, f, row);
    var items, after := InboxOf(s.inbox, d), InboxOf(next.inbox, d);
    if Accepted(s, sender, f, row) {
      QueuedInbox(s.inbox, Offline(s, f, sender), Mail(f, s.owners[sender], row), d);
    }
    if after != items {
      MailWaits(items, f, s.owners[sender], row, g);
    }
  }

  lemma TargetedOnly(h: HubState, d: DeviceId, g: GroupId, m: ServerMessage, exclude: Option<DeviceId>)
    requires Current(h, d, g) && Owned(h, d, h.deviceSubs[d]) && exclude != Some(d)
    ensures
      var c := h.deviceSubs[d];
      var after := Delivered(h, g, m, exclude).channels;
      after[c] == TrySend(h.channels[c], m) &&
      forall e | 0 <= e < |h.channels| && h.channels[e].device == d && e != c :: after[e] == h.channels[e]
  {
  }

  /** The device's current stream is its last, and the group holds the device with it. */
  ghost predicate OnCurrent(h: HubState, d: DeviceId, g: GroupId)
  {
    && Current(h, d, g) && Owned(h, d, h.deviceSubs[d])
    && forall e | h.deviceSubs[d] < e < |h.channels| :: h.channels[e].device != d
  }

  lemma SoundCurrent(h: HubState, d: DeviceId, g: GroupId)
    requires Sound(h) && Lists(h, d, g)
    ensures OnCurrent(h, d, g)
  {
    assert Current(h, d, g);
    assert Owned(h, d, h.deviceSubs[d]);
  }

  /** A message to the group is offered once to a connected device that lists it. */
  lemma DeliveredOnce(h: HubState, d: DeviceId, g: GroupId, m: ServerMessage, exclude: Option<DeviceId>)
    requires OnCurrent(h, d, g) && exclude != Some(d) && PrivateTo(g, m)
    ensures
      var cs, after := h.channels, Delivered(h, g, m, exclude).channels;
      || (Streamed(after, d, g) == Streamed(cs, d, g) + [m] && Refused(after, d, g) == Refused(cs, d, g))
      || (Streamed(after, d, g) == Streamed(cs, d, g) && Refused(after, d, g) == Refused(cs, d, g) + 1)
  {
    TargetedOnly(h, d, g, m, exclude);
    OneMore(h.channels, Delivered(h, g, m, exclude).channels, d, g, h.deviceSubs[d], m);
  }

  /** A connected device gets the message, once, on its current stream. */
  lemma SentToConnected(s: Svc, sender: DeviceId, g: GroupId, row: Row, d: DeviceId)
    requires OnCurrent(s.hub, d, g) && Waiting(s, d, g) == []
    requires sender in s.owners && Accepted(s, sender, g, row) && sender != d
    ensures AddedOrRefused(s, PrivateSent(s, sender, g, row), d, g, Live(g, s.owners[sender], row))
  {
    var m := Live(g, s.owners[sender], row);
    DeliveredOnce(s.hub, d, g, m, Some(sender));
    MailQueued(s, sender, g, row, d, g);
    StreamAdds(s, PrivateSent(s, sender, g, row), d, g, m);
  }

  lemma UntargetedCounts(h: HubState, g: GroupId, m: ServerMessage, exclude: Option<DeviceId>, d: DeviceId)
    requires d !in MembersIn(h, g) || exclude == Some(d)
    ensures Streamed(Delivered(h, g, m, exclude).channels, d, g) == Streamed(h.channels, d, g)
    ensures Refused(Delivered(h, g, m, exclude).channels, d, g) == Refused(h.channels, d, g)
  {
    QuietCounts(h.channels, Delivered(h, g, m, exclude).channels, d, g);
  }

  lemma UnheldWhenAway(h: HubState, d: DeviceId, g: GroupId)
    requires Sound(h) && d !in h.deviceSubs
    ensures d !in MembersIn(h, g)
  {
    assert Holds(h, g, d) ==> Lists(h, d, g);
  }

  /** A device that is away finds the message at the end of its mailbox. */
  lemma SentToAway(s: Svc, sender: DeviceId, g: GroupId, row: Row, d: DeviceId)
    requires d !in MembersIn(s.hub, g) && d in Offline(s, g, sender)
    requires sender in s.owners && Accepted(s, sender, g, row)
    ensures
      var next := PrivateSent(s, sender, g, row);
      Got(next, d, g) == Got(s, d, g) + [Live(g, s.owners[sender], row)] && Missed(next, d, g) == Missed(s, d, g)
  {
    var m := Live(g, s.owners[sender], row);
    UntargetedCounts(s.hub, g, m, Some(sender), d);
    MailQueued(s, sender, g, row, d, g);
    QueueAdds(s, PrivateSent(s, sender, g, row), d, g, m);
  }

  /** The sending device gets nothing. */
  lemma SentBySelf(s: Svc, d: DeviceId, g: GroupId, row: Row)
    requires d in s.owners
    ensures Got(PrivateSent(s, d, g, row), d, g) == Got(s, d, g)
    ensures Missed(PrivateSent(s, d, g, row), d, g) == Missed(s, d, g)
  {
    if Accepted(s, d, g, row) {
      UntargetedCounts(s.hub, g, Live(g, s.owners[d], row), Some(d), d);
    }
    MailQueued(s, d, g, row, d, g);
  }

  /** What a send does to a tracked device: from another device, an accepted message is the last
      thing it has got, or one more refused, and refused only if it is connected; otherwise nothing
      changes, and nothing it had is ever lost. */
  lemma SendAccounted(s: Svc, sender: DeviceId, g: GroupId, row: Row, d: DeviceId)
    requires Sound(s.hub) && Tracked(s, d, g) && sender in s.owners
    ensures
      var next := PrivateSent(s, sender, g, row);
      if sender != d && Accepted(s, sender, g, row) then
        AddedOrRefused(s, next, d, g, Live(g, s.owners[sender], row)) &&
        (d !in s.hub.deviceSubs ==> Missed(next, d, g) == Missed(s, d, g))
      else Got(next, d, g) == Got(s, d, g) && Missed(next, d, g) == Missed(s, d, g)
  {
    if sender == d {
      SentBySelf(s, d, g, row);
    } else if Accepted(s, sender, g, row) {
      if d in s.hub.deviceSubs {
        SoundCurrent(s.hub, d, g);
        SentToConnected(s, sender, g, row, d);
      } else {
        UnheldWhenAway(s.hub, d, g);
        SentToAway(s, sender, g, row, d);
      }
    }
  }

  lemma SendStepAccounted(s: Svc, op: Op, d: DeviceId, g: GroupId)
    requires Sound(s.hub) && Tracked(s, d, g) && Enabled(s, op) && op.SendPrivate? && op.group == g
    ensures Accounted(s, Step(s, op), d, g, FromOther(s, op, d, g))
  {
    SendAccounted(s, op.device, g, op.row, d);
    if op.device != d && Accepted(s, op.device, g, op.row) {
      AddedAccounted(s, Step(s, op), d, g, Live(g, s.owners[op.device], op.row));
    } else {
      SameAccounted(s, Step(s, op), d, g);
    }
  }

  lemma OpenedAccounted(s: Svc, d: DeviceId, groups: seq<GroupId>, g: GroupId)
    ensures Accounted(s, Opened(s, d, groups), d, g, [])
  {
    var ms := RebuiltAll(InboxOf(s.inbox, d));
    var fit := if |ms| <= CAPACITY then |ms| else CAPACITY;
    var next := Opened(s, d, groups);
    var streamed := Streamed(s.hub.channels, d, g);
    OpeningDrains(s, d, groups);
    StreamedSnoc(s.hub.channels, Channel(d, true, ms[..fit], ms[fit..], fit), d, g);
    PrivateOfAll(ms[..fit], ms[fit..], g);
    assert ms[..fit] + ms[fit..] == ms;
    assert Got(next, d, g) == streamed + PrivateOf(ms[..fit], g);
    assert Got(s, d, g) == Got(next, d, g) + PrivateOf(ms[fit..], g);
    SubsequencePrefix(Got(next, d, g), PrivateOf(ms[fit..], g));
    assert Got(s, d, g) + [] == Got(s, d, g);
  }

  /** Another device's stream changes nothing for this one. */
  lemma OtherOpenedAccounted(s: Svc, e: DeviceId, groups: seq<GroupId>, d: DeviceId, g: GroupId)
    requires e != d
    ensures Accounted(s, Opened(s, e, groups), d, g, [])
  {
    var ms := RebuiltAll(InboxOf(s.inbox, e));
    var fit := if |ms| <= CAPACITY then |ms| else CAPACITY;
    OpeningDrains(s, e, groups);
    StreamedSnoc(s.hub.channels, Channel(e, true, ms[..fit], ms[fit..], fit), d, g);
    SameAccounted(s, Opened(s, e, groups), d, g);
  }

  lemma EnqueueKept(inbox: map<DeviceId, seq<InboxItem>>, e: DeviceId, item: InboxItem, d: DeviceId, g: GroupId)
    requires item.kind != OfPrivate
    ensures PrivateOf(RebuiltAll(InboxOf(inbox[e := InboxOf(inbox, e) + [item]], d)), g)
         == PrivateOf(RebuiltAll(InboxOf(inbox, d)), g)
  {
    WaitingSnoc(InboxOf(inbox, e), item, g);
  }

  lemma SameInbox(s: Svc, op: Op)
    requires Enabled(s, op) && !op.Open? && !op.SendPrivate? && !op.Enqueue?
    ensures Step(s, op).inbox == s.inbox
  {
  }

  /** Steps that queue nothing private of the group leave what is waiting as it is. */
  lemma WaitingKept(s: Svc, op: Op, d: DeviceId, g: GroupId)
    requires Enabled(s, op) && !op.Open? && !(op.SendPrivate? && op.group == g)
    ensures Waiting(Step(s, op), d, g) == Waiting(s, d, g)
  {
    if op.Enqueue? {
      EnqueueKept(s.inbox, op.device, op.item, d, g);
    } else if op.SendPrivate? {
      MailQueued(s, op.device, op.group, op.row, d, g);
    } else {
      SameInbox(s, op);
    }
  }

  lemma StepAccounted(s: Svc, op: Op, d: DeviceId, g: GroupId)
    requires Sound(s.hub) && Tracked(s, d, g) && Enabled(s, op)
    ensures Accounted(s, Step(s, op), d, g, FromOther(s, op, d, g))
  {
    if op.Open? {
      if op.device == d { OpenedAccounted(s, d, op.groups, g); }
      else { OtherOpenedAccounted(s, op.device, op.groups, d, g); }
    } else if op.SendPrivate? && op.group == g {
      SendStepAccounted(s, op, d, g);
    } else {
      StepQuiet(s, op, g);
      WaitingKept(s, op, d, g);
      QuietAccounted(s, Step(s, op), d, g);
    }
  }

  lemma OpenedTracked(s: Svc, e: DeviceId, groups: seq<GroupId>, d: DeviceId, g: GroupId)
    requires Tracked(s, d, g) && Enabled(s, Open(e, groups))
    ensures Tracked(Opened(s, e, groups), d, g)
  {
    OpeningDrains(s, e, groups);
    AllSentToShape(Registered(s.hub, e, groups), e, RebuiltAll(InboxOf(s.inbox, e)));
  }

  lemma SentTracked(s: Svc, sender: DeviceId, row: Row, d: DeviceId, g: GroupId)
    requires Tracked(s, d, g) && sender in s.owners
    ensures Tracked(PrivateSent(s, sender, g, row), d, g)
  {
    MailQueued(s, sender, g, row, d, g);
  }

  /** No step unsubscribes a device that stays connected, and only opening a stream connects one. */
  lemma ListsKept(s: Svc, op: Op, d: DeviceId, g: GroupId)
    requires Enabled(s, op) && !op.Open?
    ensures
      var h, next := s.hub, Step(s, op).hub;
      d in next.deviceSubs ==> d in h.deviceSubs && (Lists(h, d, g) ==> Lists(next, d, g))
  {
    if op.Close? {
      var e := s.hub.channels[op.sender].device;
      LeavesPublishedShape(VoiceDropped(Deregistered(Hung(s.hub, op.sender), e), e), e, op.left, s.hub.voice);
    } else if op.UpdateVoice? {
      VoiceLists(s, op, d, g);
    }
  }

  lemma VoiceLists(s: Svc, op: Op, d: DeviceId, g: GroupId)
    requires Enabled(s, op) && op.UpdateVoice?
    ensures Step(s, op).hub.deviceSubs == s.hub.deviceSubs
    ensures Lists(s.hub, d, g) ==> Lists(Step(s, op).hub, d, g)
  {
    if op.joined {
      var h, e, f := s.hub, op.device, op.group;
      var st := StateFor(s.owners[e], op.flags);
      var told := Delivered(VoiceJoined(Subscribed(h, e, f), f, e, st), f, VoiceParticipant(f, e, st, true), None);
      AllSentToShape(told, e, Burst(f, RosterOf(h, f)[e := st], op.order, e));
    }
  }

  lemma StepTracked(s: Svc, op: Op, d: DeviceId, g: GroupId)
    requires Tracked(s, d, g) && Enabled(s, op) && MemberDevice(Step(s, op), g, d)
    ensures Tracked(Step(s, op), d, g)
  {
    if op.Open? {
      OpenedTracked(s, op.device, op.groups, d, g);
    } else if op.SendPrivate? && op.group == g {
      SentTracked(s, op.device, op.row, d, g);
    } else {
      WaitingKept(s, op, d, g);
      ListsKept(s, op, d, g);
    }
  }

  /** Tracking begins for a member's device while it is away, when it opens its stream, and when it
      is subscribed with nothing of the group waiting. */
  lemma TrackingBegins(s: Svc, op: Op, d: DeviceId, g: GroupId)
    requires MemberDevice(s, g, d) && Enabled(s, op)
    requires
      || d !in s.hub.deviceSubs
      || (op == SubscribeDevice(d, g) && Waiting(s, d, g) == [])
    requires op.Open? || op.SubscribeDevice?
    ensures Tracked(Step(s, op), d, g)
  {
    if op.Open? {
      assert Tracked(s, d, g);
      OpenedTracked(s, op.device, op.groups, d, g);
    }
  }

  // ----- over whole runs -----

  lemma ChainAccounted(
      s: Svc, mid: Svc, end: Svc, d: DeviceId, g: GroupId, a: seq<ServerMessage>, b: seq<ServerMessage>)
    requires Accounted(s, mid, d, g, a) && Accounted(mid, end, d, g, b)
    ensures Accounted(s, end, d, g, a + b)
  {
    SubsequenceAppend(Got(mid, d, g), Got(s, d, g) + a, b);
    assert Got(s, d, g) + a + b == Got(s, d, g) + (a + b);
    SubsequenceChain(Got(end, d, g), Got(mid, d, g) + b, Got(s, d, g) + (a + b));
  }

  lemma {:induction false} RunAccounted(s: Svc, ops: seq<Op>, d: DeviceId, g: GroupId)
    requires Sound(s.hub) && Tracked(s, d, g) && Possible(s, ops) && Remains(s, ops, d, g)
    ensures Accounted(s, Run(s, ops), d, g, FromOthers(s, ops, d, g))
    decreases |ops|
  {
    if ops == [] {
      SameAccounted(s, s, d, g);
    } else {
      var mid := Step(s, ops[0]);
      StepAccounted(s, ops[0], d, g);
      StepTracked(s, ops[0], d, g);
      StepSound(s, ops[0]);
      RunAccounted(mid, ops[1..], d, g);
      ChainAccounted(s, mid, Run(s, ops), d, g, FromOther(s, ops[0], d, g), FromOthers(mid, ops[1..], d, g));
    }
  }

  /** Over any run through which a tracked device remains a member's: the private messages put on
      its streams followed by those in its mailbox are, in order, those it had and then those other
      devices sent, none twice; the ones left out are exactly as many as the ones refused. So
      delivery is exactly once and in order iff no private message was refused. */
  lemma ExactlyOnceInOrder(s: Svc, ops: seq<Op>, d: DeviceId, g: GroupId)
    requires Sound(s.hub) && Tracked(s, d, g) && Possible(s, ops) && Remains(s, ops, d, g)
    ensures
      var end, due := Run(s, ops), Got(s, d, g) + FromOthers(s, ops, d, g);
      && Subsequence(Got(end, d, g), due)
      && |due| - |Got(end, d, g)| == Missed(end, d, g) - Missed(s, d, g)
      && (Got(end, d, g) == due <==> Missed(end, d, g) == Missed(s, d, g))
  {
    RunAccounted(s, ops, d, g);
    SubsequenceLength(Got(Run(s, ops), d, g), Got(s, d, g) + FromOthers(s, ops, d, g));
  }
}
