/** What a client shows of a voice channel, folded from the events its streams carried, against the
    hub's roster, over whole runs. */
module VoiceRoster {
  import opened Options
  import opened Hub
  import opened Messaging
  import Membership

  // ----- the client's view -----

  predicate VoiceOn(g: GroupId, m: ServerMessage)
  {
    m.VoiceParticipant? && m.group == g
  }

  /** The voice events of the channel, in order. */
  function VoiceOf(ms: seq<ServerMessage>, g: GroupId): (events: seq<ServerMessage>)
    ensures forall i | 0 <= i < |events| :: VoiceOn(g, events[i])
    decreases |ms|
  {
    if ms == [] then []
    else
      var n := |ms| - 1;
      VoiceOf(ms[..n], g) + (if VoiceOn(g, ms[n]) then [ms[n]] else [])
  }

  /** An event replaces what was known of its device, or takes the device away. */
  function Fold(events: seq<ServerMessage>): Roster
    requires forall i | 0 <= i < |events| :: events[i].VoiceParticipant?
    decreases |events|
  {
    if events == [] then map[]
    else
      var n := |events| - 1;
      var before := Fold(events[..n]);
      if events[n].joined then before[events[n].device := events[n].state] else before - {events[n].device}
  }

  /** The devices the client has been told were present. */
  function Announced(events: seq<ServerMessage>): set<DeviceId>
    requires forall i | 0 <= i < |events| :: events[i].VoiceParticipant?
    decreases |events|
  {
    if events == [] then {}
    else
      var n := |events| - 1;
      Announced(events[..n]) + (if events[n].joined then {events[n].device} else {})
  }

  function Among(r: Roster, devices: set<DeviceId>): Roster
  {
    map d | d in r && d in devices :: r[d]
  }

  lemma FoldSnoc(events: seq<ServerMessage>, e: ServerMessage)
    requires forall i | 0 <= i < |events| :: events[i].VoiceParticipant?
    requires e.VoiceParticipant?
    ensures Fold(events + [e]) == if e.joined then Fold(events)[e.device := e.state] else Fold(events) - {e.device}
    ensures Announced(events + [e]) == Announced(events) + (if e.joined then {e.device} else {})
  {
    assert (events + [e])[..|events|] == events;
  }

  lemma VoiceOfSnoc(ms: seq<ServerMessage>, m: ServerMessage, g: GroupId)
    ensures VoiceOf(ms + [m], g) == VoiceOf(ms, g) + (if VoiceOn(g, m) then [m] else [])
  {
    assert (ms + [m])[..|ms|] == ms;
  }

  // ----- one fold after another -----

  /** The devices the client has been told anything of. */
  function Mentioned(events: seq<ServerMessage>): set<DeviceId>
    requires forall i | 0 <= i < |events| :: events[i].VoiceParticipant?
  {
    set i | 0 <= i < |events| :: events[i].device
  }

  lemma MentionedSnoc(events: seq<ServerMessage>, e: ServerMessage)
    requires forall i | 0 <= i < |events| :: events[i].VoiceParticipant?
    requires e.VoiceParticipant?
    ensures Mentioned(events + [e]) == Mentioned(events) + {e.device}
  {
    assert forall i | 0 <= i < |events| :: (events + [e])[i] == events[i];
    assert (events + [e])[|events|] == e;
  }

  lemma OverrideJoins(a: Roster, m: set<DeviceId>, b: Roster, d: DeviceId, st: VoiceState)
    ensures ((a - m) + b)[d := st] == (a - (m + {d})) + b[d := st]
  {
  }

  lemma OverrideLeaves(a: Roster, m: set<DeviceId>, b: Roster, d: DeviceId)
    ensures ((a - m) + b) - {d} == (a - (m + {d})) + (b - {d})
  {
  }

  /** Later events replace what earlier ones said of the devices they mention, and only that. */
  lemma {:induction false} FoldConcat(a: seq<ServerMessage>, b: seq<ServerMessage>)
    requires forall i | 0 <= i < |a| :: a[i].VoiceParticipant?
    requires forall i | 0 <= i < |b| :: b[i].VoiceParticipant?
    ensures Fold(a + b) == (Fold(a) - Mentioned(b)) + Fold(b)
    ensures Fold(b).Keys <= Mentioned(b)
    decreases |b|
  {
    if b == [] {
      assert a + b == a;
    } else {
      var n := |b| - 1;
      FoldConcat(a, b[..n]);
      assert b == b[..n] + [b[n]] && a + b == (a + b[..n]) + [b[n]];
      FoldSnoc(a + b[..n], b[n]);
      FoldSnoc(b[..n], b[n]);
      MentionedSnoc(b[..n], b[n]);
      if b[n].joined {
        OverrideJoins(Fold(a), Mentioned(b[..n]), Fold(b[..n]), b[n].device, b[n].state);
      } else {
        OverrideLeaves(Fold(a), Mentioned(b[..n]), Fold(b[..n]), b[n].device);
      }
    }
  }

  /** If the later events alone give the roster, all of them do if and only if whoever was left over
      from the earlier ones has been mentioned since. */
  lemma LeftOverIff(a: seq<ServerMessage>, b: seq<ServerMessage>, r: Roster)
    requires forall i | 0 <= i < |a| :: a[i].VoiceParticipant?
    requires forall i | 0 <= i < |b| :: b[i].VoiceParticipant?
    requires Fold(b) == r
    ensures Fold(a + b) == r <==> Fold(a).Keys <= Mentioned(b)
  {
    FoldConcat(a, b);
    var rest := Fold(a) - Mentioned(b);
    if d :| d in rest {
      assert d in Fold(a + b) && d !in r;
      assert d in Fold(a).Keys && d !in Mentioned(b);
    } else {
      assert rest == map[];
    }
  }

  // ----- what a stream hears -----

  /** If the stream has lost no event of the channel by then, it had lost none before and has heard
      just these since. */
  predicate Hears(c: Channel, after: Channel, g: GroupId, events: seq<ServerMessage>)
  {
    && after.device == c.device
    && (VoiceOf(after.lost, g) == [] ==>
          VoiceOf(c.lost, g) == [] && VoiceOf(after.sent, g) == VoiceOf(c.sent, g) + events)
  }

  lemma HearsThen(a: Channel, b: Channel, c: Channel, g: GroupId, first: seq<ServerMessage>, second: seq<ServerMessage>)
    requires Hears(a, b, g, first) && Hears(b, c, g, second)
    ensures Hears(a, c, g, first + second)
  {
    assert VoiceOf(a.sent, g) + first + second == VoiceOf(a.sent, g) + (first + second);
  }

  lemma HearsNothing(c: Channel, after: Channel, g: GroupId)
    requires after.device == c.device && after.sent == c.sent && after.lost == c.lost
    ensures Hears(c, after, g, [])
  {
    assert VoiceOf(c.sent, g) + [] == VoiceOf(c.sent, g);
  }

  lemma TrySendHears(c: Channel, m: ServerMessage, g: GroupId)
    ensures Hears(c, TrySend(c, m), g, if VoiceOn(g, m) then [m] else [])
  {
    VoiceOfSnoc(c.sent, m, g);
    VoiceOfSnoc(c.lost, m, g);
    assert VoiceOf(c.sent, g) + [] == VoiceOf(c.sent, g);
  }

  /** Whether a message to the group reaches the current stream of a connected device. */
  predicate Reached(h: HubState, x: DeviceId, f: GroupId, exclude: Option<DeviceId>)
  {
    Lists(h, x, f) && exclude != Some(x)
  }

  predicate Connected(h: HubState, x: DeviceId)
  {
    x in h.deviceSubs && Owned(h, x, h.deviceSubs[x])
  }

  function StreamOf(h: HubState, x: DeviceId): Channel
    requires Connected(h, x)
  {
    h.channels[h.deviceSubs[x]]
  }

  lemma SoundConnected(h: HubState, x: DeviceId, f: GroupId)
    requires Sound(h) && x in h.deviceSubs
    ensures Connected(h, x) && (Lists(h, x, f) <==> Holds(h, f, x)) && (Lists(h, x, f) ==> Current(h, x, f))
  {
    assert Lists(h, x, f) ==> Current(h, x, f);
    assert Holds(h, f, x) ==> Lists(h, x, f);
    assert Owned(h, x, h.deviceSubs[x]);
  }

  lemma DeliveredHears(h: HubState, f: GroupId, m: ServerMessage, exclude: Option<DeviceId>, x: DeviceId, g: GroupId)
    requires Sound(h) && x in h.deviceSubs
    ensures Connected(h, x) && Connected(Delivered(h, f, m, exclude), x)
    ensures Hears(StreamOf(h, x), StreamOf(Delivered(h, f, m, exclude), x), g,
                  if VoiceOn(g, m) && Reached(h, x, f, exclude) then [m] else [])
  {
    SoundConnected(h, x, f);
    var c := StreamOf(h, x);
    TrySendHears(c, m, g);
    HearsNothing(c, c, g);
  }

  lemma SentToHears(h: HubState, d: DeviceId, m: ServerMessage, x: DeviceId, g: GroupId)
    requires Sound(h) && x in h.deviceSubs
    ensures Connected(h, x) && Connected(SentTo(h, d, m), x)
    ensures Hears(StreamOf(h, x), StreamOf(SentTo(h, d, m), x), g, if VoiceOn(g, m) && d == x then [m] else [])
  {
    SoundConnected(h, x, g);
    var c := StreamOf(h, x);
    TrySendHears(c, m, g);
    HearsNothing(c, c, g);
    if d != x && d in h.deviceSubs { SoundConnected(h, d, g); }
  }

  lemma {:induction false} AllSentToHears(h: HubState, d: DeviceId, ms: seq<ServerMessage>, x: DeviceId, g: GroupId)
    requires Sound(h) && x in h.deviceSubs
    ensures Connected(h, x) && Connected(AllSentTo(h, d, ms), x)
    ensures Hears(StreamOf(h, x), StreamOf(AllSentTo(h, d, ms), x), g, if d == x then VoiceOf(ms, g) else [])
    decreases |ms|
  {
    SoundConnected(h, x, g);
    if ms == [] {
      HearsNothing(StreamOf(h, x), StreamOf(h, x), g);
    } else {
      var n := |ms| - 1;
      var mid := AllSentTo(h, d, ms[..n]);
      AllSentToHears(h, d, ms[..n], x, g);
      AllSentToSound(h, d, ms[..n]);
      AllSentToShape(h, d, ms[..n]);
      SentToHears(mid, d, ms[n], x, g);
      HearsThen(StreamOf(h, x), StreamOf(mid, x), StreamOf(AllSentTo(h, d, ms), x), g,
                if d == x then VoiceOf(ms[..n], g) else [],
                if VoiceOn(g, ms[n]) && d == x then [ms[n]] else []);
    }
  }

  lemma LeavesSound(h: HubState, d: DeviceId, left: seq<GroupId>, last: map<GroupId, Roster>, x: DeviceId, g: GroupId)
    requires Sound(h) && x in h.deviceSubs
    requires forall i | 0 <= i < |left| :: left[i] in last && d in last[left[i]]
    ensures Sound(LeavesPublished(h, d, left, last)) && x in LeavesPublished(h, d, left, last).deviceSubs
    ensures Connected(LeavesPublished(h, d, left, last), x)
    ensures Lists(LeavesPublished(h, d, left, last), x, g) <==> Lists(h, x, g)
  {
    LeavesPublishedShape(h, d, left, last);
    SameTablesSound(h, LeavesPublished(h, d, left, last));
    SoundConnected(LeavesPublished(h, d, left, last), x, g);
  }

  /** What a stream hears of the device leaving the groups listed. */
  function LeaveHeard(h: HubState, d: DeviceId, left: seq<GroupId>, last: map<GroupId, Roster>, x: DeviceId, g: GroupId)
    : seq<ServerMessage>
    requires forall i | 0 <= i < |left| :: left[i] in last && d in last[left[i]]
  {
    if g in left && Lists(h, x, g) then [VoiceParticipant(g, d, last[g][d], false)] else []
  }

  lemma LeaveHeardNext(
      h: HubState, d: DeviceId, left: seq<GroupId>, last: map<GroupId, Roster>, x: DeviceId, g: GroupId)
    requires forall i | 0 <= i < |left| :: left[i] in last && d in last[left[i]]
    requires forall i, j | 0 <= i < j < |left| :: left[i] != left[j]
    requires left != []
    ensures
      var n := |left| - 1;
      var event := VoiceParticipant(left[n], d, last[left[n]][d], false);
      LeaveHeard(h, d, left, last, x, g) == LeaveHeard(h, d, left[..n], last, x, g) +
        (if VoiceOn(g, event) && Lists(h, x, left[n]) then [event] else [])
  {
    var n := |left| - 1;
    assert left == left[..n] + [left[n]];
    assert left[n] !in left[..n];
  }

  lemma {:induction false} LeavesHears(h: HubState, d: DeviceId, left: seq<GroupId>, last: map<GroupId, Roster>,
                                       x: DeviceId, g: GroupId)
    requires Sound(h) && x in h.deviceSubs
    requires forall i | 0 <= i < |left| :: left[i] in last && d in last[left[i]]
    requires forall i, j | 0 <= i < j < |left| :: left[i] != left[j]
    ensures Connected(h, x) && Connected(LeavesPublished(h, d, left, last), x)
    ensures Hears(StreamOf(h, x), StreamOf(LeavesPublished(h, d, left, last), x), g, LeaveHeard(h, d, left, last, x, g))
    decreases |left|
  {
    LeavesSound(h, d, left, last, x, g);
    if left == [] {
      SoundConnected(h, x, g);
      HearsNothing(StreamOf(h, x), StreamOf(h, x), g);
    } else {
      var n := |left| - 1;
      var mid := LeavesPublished(h, d, left[..n], last);
      var event := VoiceParticipant(left[n], d, last[left[n]][d], false);
      LeavesHears(h, d, left[..n], last, x, g);
      LeavesSound(h, d, left[..n], last, x, left[n]);
      DeliveredHears(mid, left[n], event, None, x, g);
      LeaveHeardNext(h, d, left, last, x, g);
      HearsThen(StreamOf(h, x), StreamOf(mid, x), StreamOf(Delivered(mid, left[n], event, None), x), g,
                LeaveHeard(h, d, left[..n], last, x, g),
                if VoiceOn(g, event) && Reached(mid, x, left[n], None) then [event] else []);
    }
  }

  // ----- the view against the roster -----

  /** The view is the roster among the devices announced; and a client told of its own presence
      has been told of everyone's. */
  predicate Mirrors(events: seq<ServerMessage>, r: Roster, x: DeviceId)
    requires forall i | 0 <= i < |events| :: events[i].VoiceParticipant?
  {
    && Fold(events) == Among(r, Announced(events))
    && (x in Announced(events) ==> r.Keys <= Announced(events))
  }

  lemma MirrorsFromNothing(r: Roster, x: DeviceId)
    ensures Mirrors([], r, x)
  {
  }

  lemma OtherJoined(events: seq<ServerMessage>, r: Roster, x: DeviceId, e: ServerMessage)
    requires forall i | 0 <= i < |events| :: events[i].VoiceParticipant?
    requires Mirrors(events, r, x) && e.VoiceParticipant? && e.joined && e.device != x
    ensures Mirrors(events + [e], r[e.device := e.state], x)
  {
    FoldSnoc(events, e);
  }

  lemma OneLeft(events: seq<ServerMessage>, r: Roster, x: DeviceId, e: ServerMessage)
    requires forall i | 0 <= i < |events| :: events[i].VoiceParticipant?
    requires Mirrors(events, r, x) && e.VoiceParticipant? && !e.joined
    ensures Mirrors(events + [e], r - {e.device}, x)
  {
    FoldSnoc(events, e);
  }

  lemma Retold(events: seq<ServerMessage>, r: Roster, e: ServerMessage)
    requires forall i | 0 <= i < |events| :: events[i].VoiceParticipant?
    requires Fold(events) == Among(r, Announced(events))
    requires e.VoiceParticipant? && e.joined && e.device in r && r[e.device] == e.state
    ensures Fold(events + [e]) == Among(r, Announced(events + [e]))
    ensures Announced(events + [e]) == Announced(events) + {e.device}
  {
    FoldSnoc(events, e);
  }

  /** Being told once more of devices as the roster has them keeps the view right. */
  predicate ToldOf(events: seq<ServerMessage>, all: seq<ServerMessage>, r: Roster, order: seq<DeviceId>, x: DeviceId)
    requires forall i | 0 <= i < |events| :: events[i].VoiceParticipant?
    requires forall i | 0 <= i < |all| :: all[i].VoiceParticipant?
  {
    && Fold(all) == Among(r, Announced(all))
    && Announced(events) <= Announced(all)
    && forall i | 0 <= i < |order| && order[i] != x :: order[i] in Announced(all)
  }

  lemma {:induction false} BurstFolds(
      g: GroupId, events: seq<ServerMessage>, r: Roster, order: seq<DeviceId>, x: DeviceId)
    requires forall i | 0 <= i < |events| :: events[i].VoiceParticipant?
    requires forall i | 0 <= i < |order| :: order[i] in r
    requires Fold(events) == Among(r, Announced(events))
    ensures forall i | 0 <= i < |events + Burst(g, r, order, x)| ::
              (events + Burst(g, r, order, x))[i].VoiceParticipant?
    ensures ToldOf(events, events + Burst(g, r, order, x), r, order, x)
    decreases |order|
  {
    if order == [] {
      assert events + [] == events;
    } else {
      var n := |order| - 1;
      var before := events + Burst(g, r, order[..n], x);
      BurstFolds(g, events, r, order[..n], x);
      assert forall i | 0 <= i < n :: order[..n][i] == order[i];
      if order[n] == x {
        assert events + Burst(g, r, order, x) == before;
      } else {
        var e := VoiceParticipant(g, order[n], r[order[n]], true);
        assert events + Burst(g, r, order, x) == before + [e];
        Retold(before, r, e);
      }
    }
  }

  /** The newcomer hears of itself and then of everyone else, and so of the whole roster. */
  lemma SelfJoined(g: GroupId, events: seq<ServerMessage>, r: Roster, x: DeviceId, st: VoiceState, order: seq<DeviceId>)
    requires forall i | 0 <= i < |events| :: events[i].VoiceParticipant?
    requires Mirrors(events, r, x) && ListsDevices(r[x := st], order)
    ensures
      var all := events + [VoiceParticipant(g, x, st, true)] + Burst(g, r[x := st], order, x);
      && (forall i | 0 <= i < |all| :: all[i].VoiceParticipant?)
      && Mirrors(all, r[x := st], x) && x in Announced(all)
  {
    FoldSnoc(events, VoiceParticipant(g, x, st, true));
    BurstFolds(g, events + [VoiceParticipant(g, x, st, true)], r[x := st], order, x);
  }

  lemma {:induction false} BurstIsVoice(f: GroupId, r: Roster, order: seq<DeviceId>, x: DeviceId, g: GroupId)
    requires forall i | 0 <= i < |order| :: order[i] in r
    ensures VoiceOf(Burst(f, r, order, x), g) == if f == g then Burst(f, r, order, x) else []
    decreases |order|
  {
    if order != [] {
      var n := |order| - 1;
      BurstIsVoice(f, r, order[..n], x, g);
      if order[n] != x {
        VoiceOfSnoc(Burst(f, r, order[..n], x), VoiceParticipant(f, order[n], r[order[n]], true), g);
      } else {
        assert Burst(f, r, order, x) == Burst(f, r, order[..n], x);
      }
    }
  }

  lemma {:induction false} RebuiltHasNoVoice(items: seq<InboxItem>, g: GroupId)
    ensures forall i | 0 <= i < |RebuiltAll(items)| :: !VoiceOn(g, RebuiltAll(items)[i])
    decreases |items|
  {
    if items != [] { RebuiltHasNoVoice(items[..|items| - 1], g); }
  }

  lemma {:induction false} NoVoice(ms: seq<ServerMessage>, g: GroupId)
    requires forall i | 0 <= i < |ms| :: !VoiceOn(g, ms[i])
    ensures VoiceOf(ms, g) == []
    decreases |ms|
  {
    if ms != [] { NoVoice(ms[..|ms| - 1], g); }
  }

  // ----- every step -----

  function Heard(h: HubState, x: DeviceId, g: GroupId): (events: seq<ServerMessage>)
    requires Connected(h, x)
    ensures forall i | 0 <= i < |events| :: VoiceOn(g, events[i])
  {
    VoiceOf(StreamOf(h, x).sent, g)
  }

  /** No voice event of the channel was refused by the device's current stream. */
  predicate NoneLost(h: HubState, x: DeviceId, g: GroupId)
    requires Connected(h, x)
  {
    VoiceOf(StreamOf(h, x).lost, g) == []
  }

  predicate Faithful(h: HubState, x: DeviceId, g: GroupId)
  {
    && Connected(h, x)
    && (NoneLost(h, x, g) ==>
          && (!Lists(h, x, g) ==> Heard(h, x, g) == [])
          && Mirrors(Heard(h, x, g), RosterOf(h, g), x))
  }

  /** Hearing nothing while the roster stays as it is. */
  lemma StaysFaithful(h: HubState, next: HubState, x: DeviceId, g: GroupId)
    requires Faithful(h, x, g) && Connected(next, x) && Hears(StreamOf(h, x), StreamOf(next, x), g, [])
    requires RosterOf(next, g) == RosterOf(h, g) && (Lists(h, x, g) ==> Lists(next, x, g))
    ensures Faithful(next, x, g)
  {
    assert Heard(h, x, g) + [] == Heard(h, x, g);
  }

  /** Not subscribed, it hears nothing, whatever the roster. */
  lemma UnsubscribedFaithful(h: HubState, next: HubState, x: DeviceId, g: GroupId)
    requires Faithful(h, x, g) && Connected(next, x) && Hears(StreamOf(h, x), StreamOf(next, x), g, [])
    requires !Lists(h, x, g)
    ensures Faithful(next, x, g)
  {
    assert Heard(h, x, g) + [] == Heard(h, x, g);
    MirrorsFromNothing(RosterOf(next, g), x);
  }

  lemma SubscribedFaithful(h: HubState, e: DeviceId, f: GroupId, x: DeviceId, g: GroupId)
    requires Faithful(h, x, g)
    ensures Faithful(Subscribed(h, e, f), x, g)
  {
    var on := Subscribed(h, e, f);
    assert on.voice == h.voice && StreamOf(on, x) == StreamOf(h, x);
    HearsNothing(StreamOf(h, x), StreamOf(on, x), g);
    StaysFaithful(h, on, x, g);
  }

  lemma RegisteredFaithful(h: HubState, e: DeviceId, groups: seq<GroupId>, x: DeviceId, g: GroupId)
    requires e !in h.deviceSubs && x != e && Faithful(h, x, g)
    ensures Faithful(Registered(h, e, groups), x, g)
  {
    var next := Registered(h, e, groups);
    assert StreamOf(next, x) == StreamOf(h, x);
    HearsNothing(StreamOf(h, x), StreamOf(next, x), g);
    StaysFaithful(h, next, x, g);
  }

  lemma OtherToldFaithful(h: HubState, e: DeviceId, ms: seq<ServerMessage>, x: DeviceId, g: GroupId)
    requires Sound(h) && x in h.deviceSubs && x != e && Faithful(h, x, g)
    ensures Faithful(AllSentTo(h, e, ms), x, g)
  {
    AllSentToHears(h, e, ms, x, g);
    AllSentToShape(h, e, ms);
    StaysFaithful(h, AllSentTo(h, e, ms), x, g);
  }

  lemma OpenedFaithful(s: Svc, e: DeviceId, groups: seq<GroupId>, x: DeviceId, g: GroupId)
    requires Sound(s.hub) && e !in s.hub.deviceSubs && x != e && x in s.hub.deviceSubs && Faithful(s.hub, x, g)
    ensures Faithful(Opened(s, e, groups).hub, x, g)
  {
    RegisteredSound(s.hub, e, groups);
    RegisteredFaithful(s.hub, e, groups, x, g);
    OtherToldFaithful(Registered(s.hub, e, groups), e, RebuiltAll(InboxOf(s.inbox, e)), x, g);
  }

  /** A new stream has carried no voice event. */
  lemma FreshFaithful(s: Svc, x: DeviceId, groups: seq<GroupId>, g: GroupId)
    requires Sound(s.hub) && x !in s.hub.deviceSubs
    ensures Faithful(Opened(s, x, groups).hub, x, g)
  {
    var h := Registered(s.hub, x, groups);
    var ms := RebuiltAll(InboxOf(s.inbox, x));
    RegisteredSound(s.hub, x, groups);
    AllSentToHears(h, x, ms, x, g);
    RebuiltHasNoVoice(InboxOf(s.inbox, x), g);
    NoVoice(ms, g);
    MirrorsFromNothing(RosterOf(Opened(s, x, groups).hub, g), x);
  }

  lemma OneLeftFaithful(h: HubState, next: HubState, x: DeviceId, g: GroupId, event: ServerMessage)
    requires VoiceOn(g, event) && !event.joined && Faithful(h, x, g) && Connected(next, x)
    requires Hears(StreamOf(h, x), StreamOf(next, x), g, [event])
    requires RosterOf(next, g) == RosterOf(h, g) - {event.device} && Lists(next, x, g)
    ensures Faithful(next, x, g)
  {
    if NoneLost(next, x, g) { OneLeft(Heard(h, x, g), RosterOf(h, g), x, event); }
  }

  lemma OtherJoinedFaithful(h: HubState, next: HubState, x: DeviceId, g: GroupId, event: ServerMessage)
    requires VoiceOn(g, event) && event.joined && event.device != x && Faithful(h, x, g) && Connected(next, x)
    requires Hears(StreamOf(h, x), StreamOf(next, x), g, [event])
    requires RosterOf(next, g) == RosterOf(h, g)[event.device := event.state] && Lists(next, x, g)
    ensures Faithful(next, x, g)
  {
    if NoneLost(next, x, g) { OtherJoined(Heard(h, x, g), RosterOf(h, g), x, event); }
  }

  lemma SelfJoinedFaithful(h: HubState, next: HubState, x: DeviceId, g: GroupId, st: VoiceState, order: seq<DeviceId>)
    requires Faithful(h, x, g) && Connected(next, x) && Lists(next, x, g)
    requires ListsDevices(RosterOf(h, g)[x := st], order)
    requires Hears(StreamOf(h, x), StreamOf(next, x), g,
                   [VoiceParticipant(g, x, st, true)] + Burst(g, RosterOf(h, g)[x := st], order, x))
    requires RosterOf(next, g) == RosterOf(h, g)[x := st]
    ensures Faithful(next, x, g)
    ensures NoneLost(next, x, g) ==> x in Announced(Heard(next, x, g))
  {
    if NoneLost(next, x, g) {
      var before, event, burst :=
        Heard(h, x, g), VoiceParticipant(g, x, st, true), Burst(g, RosterOf(h, g)[x := st], order, x);
      SelfJoined(g, before, RosterOf(h, g), x, st, order);
      assert before + [event] + burst == before + ([event] + burst);
    }
  }

  lemma GoneSound(h: HubState, c: Sender, x: DeviceId, g: GroupId)
    requires Sound(h) && c < |h.channels| && h.channels[c].device != x && x in h.deviceSubs
    ensures
      var gone := VoiceDropped(Deregistered(Hung(h, c), h.channels[c].device), h.channels[c].device);
      && Sound(gone) && x in gone.deviceSubs && Connected(gone, x) && Connected(h, x)
      && StreamOf(gone, x) == StreamOf(h, x) && (Lists(gone, x, g) <==> Lists(h, x, g))
  {
    var d := h.channels[c].device;
    var hung := Hung(h, c);
    SameTablesSound(h, hung);
    DeregisteredIndexed(hung, d);
    DeregisteredExact(hung, d);
    var out := Deregistered(hung, d);
    var gone := VoiceDropped(out, d);
    forall f, e | e in RosterOf(gone, f) ensures e in gone.deviceSubs {
      RosterDropped(out, d, f);
      assert e in RosterOf(h, f);
    }
    RostersSound(out, gone);
    SoundConnected(h, x, g);
  }

  lemma ClosedHears(h: HubState, c: Sender, left: seq<GroupId>, x: DeviceId, g: GroupId)
    requires Sound(h) && c < |h.channels| && ListsRosters(h, h.channels[c].device, left)
    requires h.channels[c].device != x && x in h.deviceSubs
    ensures Connected(h, x) && Connected(Closed(h, c, left), x)
    ensures Hears(StreamOf(h, x), StreamOf(Closed(h, c, left), x), g,
                  LeaveHeard(h, h.channels[c].device, left, h.voice, x, g))
    ensures RosterOf(Closed(h, c, left), g) == RosterOf(h, g) - {h.channels[c].device}
    ensures Lists(Closed(h, c, left), x, g) <==> Lists(h, x, g)
  {
    var e := h.channels[c].device;
    var gone := VoiceDropped(Deregistered(Hung(h, c), e), e);
    GoneSound(h, c, x, g);
    RosterDropped(Deregistered(Hung(h, c), e), e, g);
    LeavesHears(gone, e, left, h.voice, x, g);
    LeavesPublishedShape(gone, e, left, h.voice);
  }

  lemma ClosedFaithful(h: HubState, c: Sender, left: seq<GroupId>, x: DeviceId, g: GroupId)
    requires Sound(h) && c < |h.channels| && ListsRosters(h, h.channels[c].device, left)
    requires h.channels[c].device != x && Faithful(h, x, g) && x in h.deviceSubs
    ensures Faithful(Closed(h, c, left), x, g)
  {
    var e, next := h.channels[c].device, Closed(h, c, left);
    ClosedHears(h, c, left, x, g);
    if !Lists(h, x, g) {
      UnsubscribedFaithful(h, next, x, g);
    } else if g in left {
      OneLeftFaithful(h, next, x, g, VoiceParticipant(g, e, h.voice[g][e], false));
    } else {
      assert RosterOf(h, g) - {e} == RosterOf(h, g);
      StaysFaithful(h, next, x, g);
    }
  }

  // What each device hears of a voice update, and what becomes of the roster.

  lemma JoinedShape(h: HubState, e: DeviceId, f: GroupId, st: VoiceState, order: seq<DeviceId>, x: DeviceId, g: GroupId)
    requires ListsDevices(RosterOf(h, f)[e := st], order)
    ensures
      var next := JoinedVoice(h, e, f, st, order);
      && RosterOf(next, g) == (if f == g then RosterOf(h, g)[e := st] else RosterOf(h, g))
      && (Lists(next, x, g) <==> Lists(h, x, g) || (x == e && f == g && x in h.deviceSubs))
      && next.deviceSubs == h.deviceSubs
  {
    var joined := VoiceJoined(Subscribed(h, e, f), f, e, st);
    var told := Delivered(joined, f, VoiceParticipant(f, e, st, true), None);
    AllSentToShape(told, e, Burst(f, RosterOf(h, f)[e := st], order, e));
  }

  /** The event of a voice update reaches the subscribers, its sender among them. */
  lemma UpdateHears(h: HubState, on: HubState, e: DeviceId, event: ServerMessage, x: DeviceId, g: GroupId)
    requires event.VoiceParticipant? && Sound(h) && e in h.deviceSubs && x in h.deviceSubs
    requires Sound(on) && on.deviceSubs == h.deviceSubs && on.channels == h.channels
    requires Lists(on, x, event.group) <==> Lists(h, x, event.group) || x == e
    ensures Connected(h, x) && Connected(Delivered(on, event.group, event, None), x)
    ensures Hears(StreamOf(h, x), StreamOf(Delivered(on, event.group, event, None), x), g,
                  if event.group == g && (Lists(h, x, g) || x == e) then [event] else [])
  {
    SoundConnected(h, x, g);
    DeliveredHears(on, event.group, event, None, x, g);
  }

  lemma JoinedHears(h: HubState, e: DeviceId, f: GroupId, st: VoiceState, order: seq<DeviceId>, x: DeviceId, g: GroupId)
    requires Sound(h) && e in h.deviceSubs && x in h.deviceSubs
    requires ListsDevices(RosterOf(h, f)[e := st], order)
    ensures Connected(h, x) && Connected(JoinedVoice(h, e, f, st, order), x)
    ensures Hears(StreamOf(h, x), StreamOf(JoinedVoice(h, e, f, st, order), x), g,
      (if f == g && (Lists(h, x, g) || x == e) then [VoiceParticipant(g, e, st, true)] else []) +
      (if f == g && x == e then Burst(g, RosterOf(h, f)[e := st], order, e) else []))
  {
    var joined := VoiceJoined(Subscribed(h, e, f), f, e, st);
    var event := VoiceParticipant(f, e, st, true);
    var told := Delivered(joined, f, event, None);
    var burst := Burst(f, RosterOf(h, f)[e := st], order, e);
    SubscribedSound(h, e, f);
    VoiceJoinedSound(Subscribed(h, e, f), f, e, st);
    DeliveredSound(joined, f, event, None);
    UpdateHears(h, joined, e, event, x, g);
    AllSentToHears(told, e, burst, x, g);
    BurstIsVoice(f, RosterOf(h, f)[e := st], order, e, g);
    HearsThen(StreamOf(h, x), StreamOf(told, x), StreamOf(JoinedVoice(h, e, f, st, order), x), g,
              if f == g && (Lists(h, x, g) || x == e) then [event] else [],
              if e == x then VoiceOf(burst, g) else []);
  }

  lemma LeftShape(h: HubState, e: DeviceId, f: GroupId, st: VoiceState, x: DeviceId, g: GroupId)
    requires e in h.deviceSubs
    ensures
      var next := LeftVoice(h, e, f, st);
      && RosterOf(next, g) == (if f == g then RosterOf(h, g) - {e} else RosterOf(h, g))
      && (Lists(next, x, g) <==> Lists(h, x, g) || (x == e && f == g))
  {
    RosterLeft(Subscribed(h, e, f), f, e, g);
  }

  lemma LeftOn(h: HubState, e: DeviceId, f: GroupId, x: DeviceId)
    requires e in h.deviceSubs
    ensures
      var on := VoiceLeft(Subscribed(h, e, f), f, e);
      && on.deviceSubs == h.deviceSubs && on.channels == h.channels
      && (Lists(on, x, f) <==> Lists(h, x, f) || x == e)
  {
  }

  lemma LeftOnSound(h: HubState, e: DeviceId, f: GroupId)
    requires Sound(h)
    ensures Sound(VoiceLeft(Subscribed(h, e, f), f, e))
  {
    SubscribedSound(h, e, f);
    VoiceLeftSound(Subscribed(h, e, f), f, e);
  }

  lemma LeftHears(h: HubState, e: DeviceId, f: GroupId, st: VoiceState, x: DeviceId, g: GroupId)
    requires Sound(h) && e in h.deviceSubs && x in h.deviceSubs
    ensures Connected(h, x) && Connected(LeftVoice(h, e, f, st), x)
    ensures Hears(StreamOf(h, x), StreamOf(LeftVoice(h, e, f, st), x), g,
                  if f == g && (Lists(h, x, g) || x == e) then [VoiceParticipant(g, e, st, false)] else [])
  {
    var on, event := VoiceLeft(Subscribed(h, e, f), f, e), VoiceParticipant(f, e, st, false);
    LeftOn(h, e, f, x);
    LeftOnSound(h, e, f);
    UpdateHears(h, on, e, event, x, g);
  }

  lemma JoinedFaithful(
      h: HubState, e: DeviceId, f: GroupId, st: VoiceState, order: seq<DeviceId>, x: DeviceId, g: GroupId)
    requires Sound(h) && e in h.deviceSubs && x in h.deviceSubs && Faithful(h, x, g)
    requires ListsDevices(RosterOf(h, f)[e := st], order)
    ensures
      var next := JoinedVoice(h, e, f, st, order);
      Faithful(next, x, g) && (x == e && f == g && NoneLost(next, x, g) ==> x in Announced(Heard(next, x, g)))
  {
    var next := JoinedVoice(h, e, f, st, order);
    var event := VoiceParticipant(g, e, st, true);
    JoinedShape(h, e, f, st, order, x, g);
    JoinedHears(h, e, f, st, order, x, g);
    assert [event] + [] == [event];
    if f == g && x == e {
      SelfJoinedFaithful(h, next, x, g, st, order);
    } else if f == g && Lists(h, x, g) {
      OtherJoinedFaithful(h, next, x, g, event);
    } else if f == g {
      UnsubscribedFaithful(h, next, x, g);
    } else {
      StaysFaithful(h, next, x, g);
    }
  }

  lemma LeftFaithful(h: HubState, e: DeviceId, f: GroupId, st: VoiceState, x: DeviceId, g: GroupId)
    requires Sound(h) && e in h.deviceSubs && x in h.deviceSubs && Faithful(h, x, g)
    ensures Faithful(LeftVoice(h, e, f, st), x, g)
  {
    var next := LeftVoice(h, e, f, st);
    LeftShape(h, e, f, st, x, g);
    LeftHears(h, e, f, st, x, g);
    if f == g && (Lists(h, x, g) || x == e) {
      OneLeftFaithful(h, next, x, g, VoiceParticipant(g, e, st, false));
    } else if f == g {
      UnsubscribedFaithful(h, next, x, g);
    } else {
      StaysFaithful(h, next, x, g);
    }
  }

  /** Steps that neither open, close, subscribe nor touch voice put no voice event on any stream. */
  lemma PlainStepHears(s: Svc, op: Op, x: DeviceId, g: GroupId)
    requires Sound(s.hub) && x in s.hub.deviceSubs && Enabled(s, op)
    requires !op.Open? && !op.Close? && !op.UpdateVoice? && !op.SubscribeDevice?
    ensures Connected(s.hub, x) && Connected(Step(s, op).hub, x)
    ensures Hears(StreamOf(s.hub, x), StreamOf(Step(s, op).hub, x), g, [])
  {
    SoundConnected(s.hub, x, g);
    HearsNothing(StreamOf(s.hub, x), StreamOf(s.hub, x), g);
    if op.SendPrivate? {
      DeliveredHears(s.hub, op.group, Live(op.group, s.owners[op.device], op.row), Some(op.device), x, g);
    } else if op.Publish? {
      DeliveredHears(s.hub, op.group, op.message, op.exclude, x, g);
    } else if op.Direct? {
      SentToHears(s.hub, op.device, op.message, x, g);
    } else if op.Take? {
      HearsNothing(StreamOf(s.hub, x), StreamOf(Taken(s.hub, op.sender), x), g);
    }
  }

  lemma VoiceStepFaithful(s: Svc, op: Op, x: DeviceId, g: GroupId)
    requires Sound(s.hub) && x in s.hub.deviceSubs && Faithful(s.hub, x, g) && Enabled(s, op) && op.UpdateVoice?
    ensures Faithful(Step(s, op).hub, x, g)
  {
    var st := StateFor(s.owners[op.device], op.flags);
    if op.joined {
      JoinedFaithful(s.hub, op.device, op.group, st, op.order, x, g);
    } else {
      LeftFaithful(s.hub, op.device, op.group, st, x, g);
    }
  }

  lemma PlainStepFaithful(s: Svc, op: Op, x: DeviceId, g: GroupId)
    requires Sound(s.hub) && x in s.hub.deviceSubs && Faithful(s.hub, x, g) && Enabled(s, op)
    requires !op.Open? && !op.Close? && !op.UpdateVoice? && !op.SubscribeDevice?
    ensures Faithful(Step(s, op).hub, x, g)
  {
    PlainStepHears(s, op, x, g);
    PlainStepShape(s, op);
    StaysFaithful(s.hub, Step(s, op).hub, x, g);
  }

  /** Closing its stream disconnects a device; every other stays connected. */
  lemma ClosedSubs(h: HubState, c: Sender, left: seq<GroupId>)
    requires c < |h.channels| && ListsRosters(h, h.channels[c].device, left)
    ensures Closed(h, c, left).deviceSubs == h.deviceSubs - {h.channels[c].device}
  {
    var e := h.channels[c].device;
    LeavesPublishedShape(VoiceDropped(Deregistered(Hung(h, c), e), e), e, left, h.voice);
  }

  lemma OpenedSubs(s: Svc, e: DeviceId, groups: seq<GroupId>)
    ensures Opened(s, e, groups).hub.deviceSubs.Keys == s.hub.deviceSubs.Keys + {e}
  {
    AllSentToShape(Registered(s.hub, e, groups), e, RebuiltAll(InboxOf(s.inbox, e)));
  }

  lemma StepFaithful(s: Svc, op: Op, x: DeviceId, g: GroupId)
    requires Sound(s.hub) && Enabled(s, op) && (x in s.hub.deviceSubs ==> Faithful(s.hub, x, g))
    requires x in Step(s, op).hub.deviceSubs
    ensures Faithful(Step(s, op).hub, x, g)
  {
    if op.Open? {
      OpenedSubs(s, op.device, op.groups);
      if op.device == x { FreshFaithful(s, x, op.groups, g); }
      else { OpenedFaithful(s, op.device, op.groups, x, g); }
    } else if op.Close? {
      ClosedSubs(s.hub, op.sender, op.left);
      ClosedFaithful(s.hub, op.sender, op.left, x, g);
    } else if op.SubscribeDevice? {
      SubscribedFaithful(s.hub, op.device, op.group, x, g);
    } else if op.UpdateVoice? {
      VoiceStepSubs(s, op);
      VoiceStepFaithful(s, op, x, g);
    } else {
      PlainStepShape(s, op);
      PlainStepFaithful(s, op, x, g);
    }
  }

  lemma VoiceStepSubs(s: Svc, op: Op)
    requires Enabled(s, op) && op.UpdateVoice?
    ensures Step(s, op).hub.deviceSubs == s.hub.deviceSubs
  {
    if op.joined {
      JoinedShape(s.hub, op.device, op.group, StateFor(s.owners[op.device], op.flags), op.order, op.device, op.group);
    }
  }

  // ----- over whole runs -----

  lemma {:induction false} RunFaithful(s: Svc, ops: seq<Op>, x: DeviceId, g: GroupId)
    requires Sound(s.hub) && (x in s.hub.deviceSubs ==> Faithful(s.hub, x, g)) && Possible(s, ops)
    ensures Sound(Run(s, ops).hub)
    ensures x in Run(s, ops).hub.deviceSubs ==> Faithful(Run(s, ops).hub, x, g)
    decreases |ops|
  {
    if ops != [] {
      var mid := Step(s, ops[0]);
      StepSound(s, ops[0]);
      if x in mid.hub.deviceSubs { StepFaithful(s, ops[0], x, g); }
      RunFaithful(mid, ops[1..], x, g);
    }
  }

  lemma WholeIff(r: Roster, devices: set<DeviceId>)
    ensures Among(r, devices) == r <==> r.Keys <= devices
  {
    assert Among(r, devices).Keys == r.Keys * devices;
  }

  lemma FaithfulMeans(h: HubState, x: DeviceId, g: GroupId)
    requires Faithful(h, x, g) && NoneLost(h, x, g)
    ensures
      var events := Heard(h, x, g);
      && Fold(events) == Among(RosterOf(h, g), Announced(events))
      && (Fold(events) == RosterOf(h, g) <==> RosterOf(h, g).Keys <= Announced(events))
      && (x in Announced(events) ==> Fold(events) == RosterOf(h, g))
      && (!Lists(h, x, g) ==> Fold(events) == map[])
  {
    WholeIff(RosterOf(h, g), Announced(Heard(h, x, g)));
  }

  lemma FreshSound()
    ensures Sound(EMPTY)
  {
  }

  /** The voice events of the channel on all streams the device has had, oldest first. */
  function ToldBy(channels: seq<Channel>, x: DeviceId, g: GroupId): (events: seq<ServerMessage>)
    ensures forall i | 0 <= i < |events| :: VoiceOn(g, events[i])
    decreases |channels|
  {
    if channels == [] then []
    else
      var n := |channels| - 1;
      ToldBy(channels[..n], x, g) + (if channels[n].device == x then VoiceOf(channels[n].sent, g) else [])
  }

  /** What the client shows: it goes on folding through every stream it has had. */
  function Shown(h: HubState, x: DeviceId, g: GroupId): Roster { Fold(ToldBy(h.channels, x, g)) }

  /** What it showed when its current stream was opened. */
  function LeftOver(h: HubState, x: DeviceId, g: GroupId): Roster
    requires Connected(h, x)
  {
    Fold(ToldBy(h.channels[..h.deviceSubs[x]], x, g))
  }

  lemma {:induction false} ToldByLatest(channels: seq<Channel>, x: DeviceId, g: GroupId, c: nat)
    requires c < |channels| && channels[c].device == x
    requires forall e | c < e < |channels| :: channels[e].device != x
    ensures ToldBy(channels, x, g) == ToldBy(channels[..c], x, g) + VoiceOf(channels[c].sent, g)
    decreases |channels|
  {
    var n := |channels| - 1;
    if c < n {
      ToldByLatest(channels[..n], x, g, c);
      assert channels[..n][..c] == channels[..c];
    }
  }

  /** If the current stream alone gives the roster, the client shows the roster if and only if
      whoever was left over from earlier streams has been mentioned on it. */
  lemma ShownIff(h: HubState, x: DeviceId, g: GroupId)
    requires Sound(h) && x in h.deviceSubs && Connected(h, x) && Fold(Heard(h, x, g)) == RosterOf(h, g)
    ensures Shown(h, x, g) == RosterOf(h, g) <==> LeftOver(h, x, g).Keys <= Mentioned(Heard(h, x, g))
  {
    var c := h.deviceSubs[x];
    assert forall e | c < e < |h.channels| :: h.channels[e].device != x;
    ToldByLatest(h.channels, x, g, c);
    LeftOverIff(ToldBy(h.channels[..c], x, g), Heard(h, x, g), RosterOf(h, g));
  }

  /** In every run from a freshly started hub, every rostered device is connected; and for a
      connected device whose stream refused no voice event of a channel, the events this stream
      carried fold to exactly the hub's roster among the devices announced on it, with their current
      flags. So they give the whole roster iff everyone there was announced, which is so whenever it
      was told of its own joining. A device not subscribed has heard nothing on it. */
  lemma RosterConverges(s: Svc, ops: seq<Op>, x: DeviceId, g: GroupId)
    requires s.hub == EMPTY && Possible(s, ops)
    requires x in Run(s, ops).hub.deviceSubs
    ensures
      var h := Run(s, ops).hub;
      && (forall d | d in RosterOf(h, g) :: d in h.deviceSubs)
      && Connected(h, x)
      && (NoneLost(h, x, g) ==>
            var events := Heard(h, x, g);
            && Fold(events) == Among(RosterOf(h, g), Announced(events))
            && (Fold(events) == RosterOf(h, g) <==> RosterOf(h, g).Keys <= Announced(events))
            && (x in Announced(events) ==> Fold(events) == RosterOf(h, g))
            && (!Lists(h, x, g) ==> Fold(events) == map[]))
  {
    FreshSound();
    RunFaithful(s, ops, x, g);
    if NoneLost(Run(s, ops).hub, x, g) { FaithfulMeans(Run(s, ops).hub, x, g); }
  }

  /** An accepted join is heard by the joining device itself, on the stream it has. */
  lemma JoinIsAnnounced(s: Svc, op: Op, x: DeviceId, g: GroupId)
    requires Sound(s.hub) && Faithful(s.hub, x, g) && Enabled(s, op)
    requires op.UpdateVoice? && op.device == x && op.group == g && op.joined
    requires !Membership.Participates(s.world, s.owners[x], g).1.Failed?
    ensures Connected(Step(s, op).hub, x)
    ensures NoneLost(Step(s, op).hub, x, g) ==> x in Announced(Heard(Step(s, op).hub, x, g))
  {
    JoinedFaithful(s.hub, x, g, StateFor(s.owners[x], op.flags), op.order, x, g);
  }

  // ----- a stream keeps what it has carried -----

  predicate Longer(c: Channel, after: Channel)
  {
    after.device == c.device && c.sent <= after.sent && c.lost <= after.lost
  }

  ghost predicate Grows(h: HubState, next: HubState)
  {
    && |h.channels| <= |next.channels|
    && forall c | 0 <= c < |h.channels| :: Longer(h.channels[c], next.channels[c])
  }

  lemma {:induction false} AllSentToGrows(h: HubState, d: DeviceId, ms: seq<ServerMessage>)
    ensures Grows(h, AllSentTo(h, d, ms))
    decreases |ms|
  {
    if ms != [] { AllSentToGrows(h, d, ms[..|ms| - 1]); }
  }

  lemma {:induction false} LeavesGrow(h: HubState, d: DeviceId, left: seq<GroupId>, last: map<GroupId, Roster>)
    requires forall i | 0 <= i < |left| :: left[i] in last && d in last[left[i]]
    ensures Grows(h, LeavesPublished(h, d, left, last))
    decreases |left|
  {
    if left != [] { LeavesGrow(h, d, left[..|left| - 1], last); }
  }

  lemma DeliveredGrows(h: HubState, on: HubState, f: GroupId, m: ServerMessage)
    requires on.channels == h.channels
    ensures Grows(h, Delivered(on, f, m, None))
  {
  }

  lemma GrowsThen(a: HubState, b: HubState, c: HubState)
    requires Grows(a, b) && Grows(b, c)
    ensures Grows(a, c)
  {
    forall i | 0 <= i < |a.channels| ensures Longer(a.channels[i], c.channels[i]) {
      assert Longer(a.channels[i], b.channels[i]) && Longer(b.channels[i], c.channels[i]);
    }
  }

  lemma VoiceStepGrows(s: Svc, op: Op)
    requires Enabled(s, op) && op.UpdateVoice?
    ensures Grows(s.hub, Step(s, op).hub)
  {
    var h, d, f := s.hub, op.device, op.group;
    var st := StateFor(s.owners[d], op.flags);
    if op.joined {
      var on := VoiceJoined(Subscribed(h, d, f), f, d, st);
      var told := Delivered(on, f, VoiceParticipant(f, d, st, true), None);
      DeliveredGrows(h, on, f, VoiceParticipant(f, d, st, true));
      AllSentToGrows(told, d, Burst(f, RosterOf(h, f)[d := st], op.order, d));
      GrowsThen(h, told, JoinedVoice(h, d, f, st, op.order));
    } else {
      DeliveredGrows(h, VoiceLeft(Subscribed(h, d, f), f, d), f, VoiceParticipant(f, d, st, false));
    }
  }

  lemma StepGrows(s: Svc, op: Op)
    requires Enabled(s, op)
    ensures Grows(s.hub, Step(s, op).hub)
  {
    if op.Open? {
      AllSentToGrows(Registered(s.hub, op.device, op.groups), op.device, RebuiltAll(InboxOf(s.inbox, op.device)));
    } else if op.Close? {
      var e := s.hub.channels[op.sender].device;
      LeavesGrow(VoiceDropped(Deregistered(Hung(s.hub, op.sender), e), e), e, op.left, s.hub.voice);
    } else if op.UpdateVoice? {
      VoiceStepGrows(s, op);
    }
  }

  lemma {:induction false} VoiceOfGrows(ms: seq<ServerMessage>, more: seq<ServerMessage>, g: GroupId)
    ensures Announced(VoiceOf(ms, g)) <= Announced(VoiceOf(ms + more, g))
    ensures VoiceOf(ms + more, g) == [] ==> VoiceOf(ms, g) == []
    decreases |more|
  {
    if more == [] {
      assert ms + more == ms;
    } else {
      var n := |more| - 1;
      VoiceOfGrows(ms, more[..n], g);
      assert ms + more == ms + more[..n] + [more[n]];
      VoiceOfSnoc(ms + more[..n], more[n], g);
      if VoiceOn(g, more[n]) {
        FoldSnoc(VoiceOf(ms + more[..n], g), more[n]);
      } else {
        assert VoiceOf(ms + more[..n], g) + [] == VoiceOf(ms + more[..n], g);
      }
    }
  }

  lemma LongerTells(c: Channel, after: Channel, g: GroupId)
    requires Longer(c, after)
    ensures Announced(VoiceOf(c.sent, g)) <= Announced(VoiceOf(after.sent, g))
    ensures VoiceOf(after.lost, g) == [] ==> VoiceOf(c.lost, g) == []
  {
    assert after.sent == c.sent + after.sent[|c.sent|..] && after.lost == c.lost + after.lost[|c.lost|..];
    VoiceOfGrows(c.sent, after.sent[|c.sent|..], g);
    VoiceOfGrows(c.lost, after.lost[|c.lost|..], g);
  }

  /** Through the run no stream of the device is closed. */
  predicate StaysOn(s: Svc, ops: seq<Op>, x: DeviceId)
    requires Possible(s, ops)
    decreases |ops|
  {
    ops == [] ||
      (!(ops[0].Close? && s.hub.channels[ops[0].sender].device == x) && StaysOn(Step(s, ops[0]), ops[1..], x))
  }

  /** A connected device keeps its stream in every step that does not close it. */
  lemma KeepsStream(s: Svc, op: Op, x: DeviceId)
    requires Enabled(s, op) && x in s.hub.deviceSubs
    requires !(op.Close? && s.hub.channels[op.sender].device == x)
    ensures x in Step(s, op).hub.deviceSubs && Step(s, op).hub.deviceSubs[x] == s.hub.deviceSubs[x]
  {
    if op.Open? {
      AllSentToShape(Registered(s.hub, op.device, op.groups), op.device, RebuiltAll(InboxOf(s.inbox, op.device)));
    } else if op.Close? {
      ClosedSubs(s.hub, op.sender, op.left);
    } else if op.UpdateVoice? {
      VoiceStepSubs(s, op);
    }
  }

  /** It has been told of its own presence, or has lost an event of the channel. */
  predicate ToldOfItself(h: HubState, x: DeviceId, g: GroupId)
  {
    Connected(h, x) && (NoneLost(h, x, g) ==> x in Announced(Heard(h, x, g)))
  }

  lemma StepToldOfItself(s: Svc, op: Op, x: DeviceId, g: GroupId)
    requires Sound(s.hub) && Enabled(s, op) && ToldOfItself(s.hub, x, g)
    requires !(op.Close? && s.hub.channels[op.sender].device == x)
    ensures ToldOfItself(Step(s, op).hub, x, g)
  {
    KeepsStream(s, op, x);
    StepSound(s, op);
    SoundConnected(Step(s, op).hub, x, g);
    StepGrows(s, op);
    LongerTells(StreamOf(s.hub, x), StreamOf(Step(s, op).hub, x), g);
  }

  lemma {:induction false} RunToldOfItself(s: Svc, ops: seq<Op>, x: DeviceId, g: GroupId)
    requires Sound(s.hub) && ToldOfItself(s.hub, x, g) && Possible(s, ops) && StaysOn(s, ops, x)
    ensures ToldOfItself(Run(s, ops).hub, x, g)
    decreases |ops|
  {
    if ops != [] {
      StepToldOfItself(s, ops[0], x, g);
      StepSound(s, ops[0]);
      RunToldOfItself(Step(s, ops[0]), ops[1..], x, g);
    }
  }

  /** Some run from a freshly started hub ends there. */
  ghost predicate Reachable(t: Svc)
  {
    exists s: Svc, ops: seq<Op> :: s.hub == EMPTY && Possible(s, ops) && t == Run(s, ops)
  }

  /** The request joins the voice channel, and is let in. */
  predicate JoinsVoice(t: Svc, op: Op, g: GroupId)
  {
    && op.UpdateVoice? && op.joined && op.group == g && op.device in t.owners
    && !Membership.Participates(t.world, t.owners[op.device], g).1.Failed?
  }

  lemma ReachableFaithful(t: Svc, x: DeviceId, g: GroupId)
    requires Reachable(t)
    ensures Sound(t.hub) && (x in t.hub.deviceSubs ==> Faithful(t.hub, x, g))
  {
    var s: Svc, ops: seq<Op> :| s.hub == EMPTY && Possible(s, ops) && t == Run(s, ops);
    FreshSound();
    RunFaithful(s, ops, x, g);
  }

  /** A device that has joined a voice channel since its stream opened, and not closed it since,
      has heard on it exactly the hub's roster with current flags, whatever happened in between, so
      long as the stream refused no event of the channel. Its client then shows the roster if and
      only if whoever it still showed from earlier streams has been mentioned on this one. */
  lemma JoinedShowsRoster(t: Svc, join: Op, after: seq<Op>, g: GroupId)
    requires Reachable(t) && Enabled(t, join) && JoinsVoice(t, join, g)
    requires Possible(Step(t, join), after) && StaysOn(Step(t, join), after, join.device)
    ensures
      var h, x := Run(Step(t, join), after).hub, join.device;
      Connected(h, x) &&
      (NoneLost(h, x, g) ==>
         && Fold(Heard(h, x, g)) == RosterOf(h, g)
         && (Shown(h, x, g) == RosterOf(h, g) <==> LeftOver(h, x, g).Keys <= Mentioned(Heard(h, x, g))))
  {
    var u, x := Step(t, join), join.device;
    ReachableFaithful(t, x, g);
    JoinIsAnnounced(t, join, x, g);
    StepSound(t, join);
    StepFaithful(t, join, x, g);
    RunToldOfItself(u, after, x, g);
    RunFaithful(u, after, x, g);
    RunKeepsStream(u, after, x);
    var h := Run(u, after).hub;
    if NoneLost(h, x, g) {
      FaithfulMeans(h, x, g);
      ShownIff(h, x, g);
    }
  }

  lemma {:induction false} RunKeepsStream(s: Svc, ops: seq<Op>, x: DeviceId)
    requires Possible(s, ops) && StaysOn(s, ops, x) && x in s.hub.deviceSubs
    ensures x in Run(s, ops).hub.deviceSubs
    decreases |ops|
  {
    if ops != [] {
      KeepsStream(s, ops[0], x);
      RunKeepsStream(Step(s, ops[0]), ops[1..], x);
    }
  }
}
