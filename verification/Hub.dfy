/** The delivery hub of one server instance: who is connected, who is subscribed to which group,
    the bounded buffer of every stream, and the voice rosters. */
module Hub {
  import opened Options

  type UserId = nat
  type DeviceId = nat
  type GroupId = nat

  /** Streams are numbered in the order they were opened. */
  type Sender = nat

  const CAPACITY := 128

  datatype VoiceState = VoiceState(user: UserId, muted: bool, cameraOn: bool, screenOn: bool)

  /** What a queued private message keeps beside its group. */
  datatype PrivateInboxPayload = PrivateInboxPayload(
    ciphertext: seq<nat>, sender: UserId, epoch: nat, secs: int, nanos: int, number: nat)

  /** Opaque bytes: the serialized form of a queued private message, or bytes that are no such form. */
  datatype Bytes = Json(queued: PrivateInboxPayload) | Raw(bytes: seq<nat>)

  /** What a stream carries. `Other` stands for the kinds that are told apart by their content
      only: public messages, voice signals and moderation alerts. */
  datatype ServerMessage =
    | PrivateMessage(
        group: GroupId, sender: UserId, ciphertext: seq<nat>, epoch: nat, secs: int, nanos: int, number: nat)
    | VoiceParticipant(group: GroupId, device: DeviceId, state: VoiceState, joined: bool)
    | Welcome(group: GroupId, payload: Bytes)
    | Commit(group: GroupId, payload: Bytes, epoch: nat)
    | Other(content: nat)

  function EncodePrivateInbox(p: PrivateInboxPayload): Bytes
  {
    Json(p)
  }

  function PrivateNotification(group: GroupId, payload: Bytes): Option<ServerMessage>
  {
    match payload
    case Json(p) => Some(PrivateMessage(group, p.sender, p.ciphertext, p.epoch, p.secs, p.nanos, p.number))
    case Raw(_) => None
  }

  /** One stream: what was put on it, what was refused because its buffer was full or its client
      gone, and how much the client has yet to take. */
  datatype Channel = Channel(
    device: DeviceId, open: bool, sent: seq<ServerMessage>, lost: seq<ServerMessage>, unread: nat)

  function TrySend(c: Channel, m: ServerMessage): Channel
  {
    if c.open && c.unread < CAPACITY then c.(sent := c.sent + [m], unread := c.unread + 1)
    else c.(lost := c.lost + [m])
  }

  type Members = map<DeviceId, Sender>

  type Roster = map<DeviceId, VoiceState>

  datatype HubState = HubState(
    groupSubs: map<GroupId, Members>,
    deviceSubs: map<DeviceId, Sender>,
    deviceGroups: map<DeviceId, seq<GroupId>>,
    channels: seq<Channel>,
    voice: map<GroupId, Roster>)

  const EMPTY := HubState(map[], map[], map[], [], map[])

  function MembersIn(h: HubState, g: GroupId): Members
  {
    if g in h.groupSubs then h.groupSubs[g] else map[]
  }

  function RosterOf(h: HubState, g: GroupId): Roster
  {
    if g in h.voice then h.voice[g] else map[]
  }

  // ----- registration and routing tables -----

  function Registered(h: HubState, d: DeviceId, groups: seq<GroupId>): HubState
  {
    var tx := |h.channels|;
    HubState(
      map g | g in h.groupSubs.Keys + (set i | 0 <= i < |groups| :: groups[i]) ::
        if g in groups then MembersIn(h, g)[d := tx] else MembersIn(h, g),
      h.deviceSubs[d := tx],
      h.deviceGroups[d := groups],
      h.channels + [Channel(d, true, [], [], 0)],
      h.voice)
  }

  function Without(subs: map<GroupId, Members>, d: DeviceId, groups: seq<GroupId>): map<GroupId, Members>
  {
    map g | g in subs && !(g in groups && subs[g] - {d} == map[]) ::
      if g in groups then subs[g] - {d} else subs[g]
  }

  function Deregistered(h: HubState, d: DeviceId): HubState
  {
    h.(groupSubs := if d in h.deviceGroups then Without(h.groupSubs, d, h.deviceGroups[d]) else h.groupSubs,
       deviceSubs := h.deviceSubs - {d},
       deviceGroups := h.deviceGroups - {d})
  }

  function Subscribed(h: HubState, d: DeviceId, g: GroupId): HubState
  {
    if d !in h.deviceSubs then h
    else
      var groups := if d in h.deviceGroups then h.deviceGroups[d] else [];
      h.(groupSubs := h.groupSubs[g := MembersIn(h, g)[d := h.deviceSubs[d]]],
         deviceGroups := h.deviceGroups[d := if g in groups then groups else groups + [g]])
  }

  // ----- delivery -----

  /** Whether a message to a group goes to this stream. */
  predicate Targeted(h: HubState, g: GroupId, exclude: Option<DeviceId>, c: Sender)
    requires c < |h.channels|
  {
    var d := h.channels[c].device;
    d in MembersIn(h, g) && MembersIn(h, g)[d] == c && exclude != Some(d)
  }

  function Delivered(h: HubState, g: GroupId, m: ServerMessage, exclude: Option<DeviceId>): HubState
  {
    h.(channels := seq(|h.channels|, c requires 0 <= c < |h.channels| =>
         if Targeted(h, g, exclude, c) then TrySend(h.channels[c], m) else h.channels[c]))
  }

  function SentTo(h: HubState, d: DeviceId, m: ServerMessage): HubState
  {
    if d in h.deviceSubs && h.deviceSubs[d] < |h.channels| then
      h.(channels := h.channels[h.deviceSubs[d] := TrySend(h.channels[h.deviceSubs[d]], m)])
    else h
  }

  function AllSentTo(h: HubState, d: DeviceId, messages: seq<ServerMessage>): HubState
    decreases |messages|
  {
    if messages == [] then h
    else SentTo(AllSentTo(h, d, messages[..|messages| - 1]), d, messages[|messages| - 1])
  }

  /** The client takes a message off its stream. */
  function Taken(h: HubState, c: Sender): HubState
    requires c < |h.channels| && h.channels[c].unread > 0
  {
    h.(channels := h.channels[c := h.channels[c].(unread := h.channels[c].unread - 1)])
  }

  // ----- voice -----

  function VoiceJoined(h: HubState, g: GroupId, d: DeviceId, st: VoiceState): HubState
  {
    h.(voice := h.voice[g := RosterOf(h, g)[d := st]])
  }

  function VoiceLeft(h: HubState, g: GroupId, d: DeviceId): HubState
  {
    if g !in h.voice then h
    else if h.voice[g] - {d} == map[] then h.(voice := h.voice - {g})
    else h.(voice := h.voice[g := h.voice[g] - {d}])
  }

  function VoiceDropped(h: HubState, d: DeviceId): HubState
  {
    h.(voice := map g | g in h.voice && h.voice[g] - {d} != map[] :: h.voice[g] - {d})
  }

  /** Tells each of `groups` that the device has left, with its last state there. */
  function LeavesPublished(h: HubState, d: DeviceId, groups: seq<GroupId>, last: map<GroupId, Roster>): HubState
    requires forall i | 0 <= i < |groups| :: groups[i] in last && d in last[groups[i]]
    decreases |groups|
  {
    if groups == [] then h
    else
      var n := |groups| - 1;
      Delivered(LeavesPublished(h, d, groups[..n], last), groups[n],
                VoiceParticipant(groups[n], d, last[groups[n]][d], false), None)
  }

  /** Lists every group whose roster holds the device, each once. */
  predicate ListsRosters(h: HubState, d: DeviceId, groups: seq<GroupId>)
  {
    && (forall i | 0 <= i < |groups| :: groups[i] in h.voice && d in h.voice[groups[i]])
    && (forall g | g in h.voice && d in h.voice[g] :: g in groups)
    && (forall i, j | 0 <= i < j < |groups| :: groups[i] != groups[j])
  }

  /** The device is taken out of the routing tables and the rosters, whose groups are told in the
      order given. */
  function Unregistered(h: HubState, d: DeviceId, order: seq<GroupId>): HubState
    requires ListsRosters(h, d, order)
  {
    LeavesPublished(VoiceDropped(Deregistered(h, d), d), d, order, h.voice)
  }

  /** The client of the stream is gone: its buffer takes nothing more. */
  function Hung(h: HubState, c: Sender): HubState
    requires c < |h.channels|
  {
    h.(channels := h.channels[c := h.channels[c].(open := false)])
  }

  /** The end of the stream `c`. */
  function Closed(h: HubState, c: Sender, order: seq<GroupId>): HubState
    requires c < |h.channels| && ListsRosters(h, h.channels[c].device, order)
  {
    Unregistered(Hung(h, c), h.channels[c].device, order)
  }

  // ----- the invariant of the indexes -----

  predicate Owned(h: HubState, d: DeviceId, c: Sender)
  {
    c < |h.channels| && h.channels[c].device == d
  }

  predicate Lists(h: HubState, d: DeviceId, g: GroupId)
  {
    d in h.deviceGroups && g in h.deviceGroups[d]
  }

  predicate Holds(h: HubState, g: GroupId, d: DeviceId)
  {
    d in MembersIn(h, g)
  }

  /** The group holds the device with the device's current sender. */
  predicate Current(h: HubState, d: DeviceId, g: GroupId)
  {
    Holds(h, g, d) && d in h.deviceSubs && MembersIn(h, g)[d] == h.deviceSubs[d]
  }

  ghost predicate Indexed(h: HubState)
  {
    && (forall d, g | Lists(h, d, g) :: Current(h, d, g))
    // the two device maps share keys
    && h.deviceSubs.Keys == h.deviceGroups.Keys
    && NoneEmpty(h) && AllOwned(h)
  }

  /** No inner map is empty. */
  ghost predicate NoneEmpty(h: HubState)
  {
    forall g | g in h.groupSubs :: MembersIn(h, g).Keys != {}
  }

  /** Every entry is a stream of the device it is under. */
  ghost predicate AllOwned(h: HubState)
  {
    && (forall d | d in h.deviceSubs :: Owned(h, d, h.deviceSubs[d]))
    && (forall g, d | Holds(h, g, d) :: Owned(h, d, MembersIn(h, g)[d]))
  }

  /** The tables hold no subscription that its device does not list. */
  ghost predicate Exact(h: HubState)
  {
    forall g, d | Holds(h, g, d) :: Lists(h, d, g)
  }

  lemma RegisteredMembers(h: HubState, d: DeviceId, groups: seq<GroupId>, g: GroupId)
    ensures MembersIn(Registered(h, d, groups), g)
         == if g in groups then MembersIn(h, g)[d := |h.channels|] else MembersIn(h, g)
  {
  }

  lemma DeregisteredMembers(h: HubState, d: DeviceId, g: GroupId)
    ensures MembersIn(Deregistered(h, d), g)
         == if Lists(h, d, g) then MembersIn(h, g) - {d} else MembersIn(h, g)
  {
  }

  lemma SubscribedMembers(h: HubState, d: DeviceId, g: GroupId, f: GroupId)
    ensures MembersIn(Subscribed(h, d, g), f)
         == if f == g && d in h.deviceSubs then MembersIn(h, f)[d := h.deviceSubs[d]] else MembersIn(h, f)
  {
  }

  lemma RegisteredOwned(h: HubState, d: DeviceId, groups: seq<GroupId>)
    requires AllOwned(h)
    ensures AllOwned(Registered(h, d, groups))
  {
    var next := Registered(h, d, groups);
    forall g, e | Holds(next, g, e) ensures Owned(next, e, MembersIn(next, g)[e]) {
      RegisteredMembers(h, d, groups, g);
      if e != d || g !in groups { assert Holds(h, g, e); }
    }
  }

  lemma RegisteredNoneEmpty(h: HubState, d: DeviceId, groups: seq<GroupId>)
    requires NoneEmpty(h)
    ensures NoneEmpty(Registered(h, d, groups))
  {
    var next := Registered(h, d, groups);
    forall g | g in next.groupSubs ensures MembersIn(next, g).Keys != {} {
      RegisteredMembers(h, d, groups, g);
      if g in groups { assert d in MembersIn(next, g).Keys; }
    }
  }

  lemma RegisteredIndexed(h: HubState, d: DeviceId, groups: seq<GroupId>)
    requires Indexed(h)
    ensures Indexed(Registered(h, d, groups))
  {
    var next := Registered(h, d, groups);
    RegisteredOwned(h, d, groups);
    RegisteredNoneEmpty(h, d, groups);
    forall e, g | Lists(next, e, g) ensures Current(next, e, g) {
      RegisteredMembers(h, d, groups, g);
      if e != d { assert Lists(h, e, g); }
    }
  }

  lemma DeregisteredOwned(h: HubState, d: DeviceId)
    requires AllOwned(h)
    ensures AllOwned(Deregistered(h, d))
  {
    var next := Deregistered(h, d);
    forall g, e | Holds(next, g, e) ensures Owned(next, e, MembersIn(next, g)[e]) {
      DeregisteredMembers(h, d, g);
      assert Holds(h, g, e);
    }
  }

  lemma DeregisteredIndexed(h: HubState, d: DeviceId)
    requires Indexed(h)
    ensures Indexed(Deregistered(h, d))
  {
    var next := Deregistered(h, d);
    DeregisteredOwned(h, d);
    forall e, g | Lists(next, e, g) ensures Current(next, e, g) {
      DeregisteredMembers(h, d, g);
      assert Lists(h, e, g);
    }
    forall g | g in next.groupSubs ensures MembersIn(next, g).Keys != {} {
      DeregisteredMembers(h, d, g);
    }
  }

  lemma DeregisteredExact(h: HubState, d: DeviceId)
    requires Exact(h)
    ensures Exact(Deregistered(h, d))
  {
    var next := Deregistered(h, d);
    forall g, e | Holds(next, g, e) ensures Lists(next, e, g) {
      DeregisteredMembers(h, d, g);
      assert Holds(h, g, e);
    }
  }

  lemma SubscribedOwned(h: HubState, d: DeviceId, g: GroupId)
    requires AllOwned(h)
    ensures AllOwned(Subscribed(h, d, g))
  {
    var next := Subscribed(h, d, g);
    forall f, e | Holds(next, f, e) ensures Owned(next, e, MembersIn(next, f)[e]) {
      SubscribedMembers(h, d, g, f);
      if e != d || f != g { assert Holds(h, f, e); }
    }
  }

  lemma SubscribedIndexed(h: HubState, d: DeviceId, g: GroupId)
    requires Indexed(h)
    ensures Indexed(Subscribed(h, d, g))
  {
    var next := Subscribed(h, d, g);
    SubscribedOwned(h, d, g);
    forall e, f | Lists(next, e, f) ensures Current(next, e, f) {
      SubscribedMembers(h, d, g, f);
      if e != d || f != g { assert Lists(h, e, f); }
    }
    forall f | f in next.groupSubs ensures MembersIn(next, f).Keys != {} {
      SubscribedMembers(h, d, g, f);
      if f == g && d in h.deviceSubs { assert d in MembersIn(next, g).Keys; }
    }
  }

  lemma SubscribedExact(h: HubState, d: DeviceId, g: GroupId)
    requires Exact(h)
    ensures Exact(Subscribed(h, d, g))
  {
    var next := Subscribed(h, d, g);
    forall f, e | Holds(next, f, e) ensures Lists(next, e, f) {
      SubscribedMembers(h, d, g, f);
      if e != d || f != g { assert Holds(h, f, e); }
    }
  }

  predicate SameTables(h: HubState, next: HubState)
  {
    && next.groupSubs == h.groupSubs && next.deviceSubs == h.deviceSubs
    && next.deviceGroups == h.deviceGroups
    && |next.channels| == |h.channels|
    && forall c | 0 <= c < |h.channels| :: next.channels[c].device == h.channels[c].device
  }

  lemma OwnedInShape(h: HubState, next: HubState)
    requires AllOwned(h) && SameTables(h, next)
    ensures AllOwned(next)
  {
    forall d | d in next.deviceSubs ensures Owned(next, d, next.deviceSubs[d]) {
      assert Owned(h, d, h.deviceSubs[d]);
    }
    forall g, d | Holds(next, g, d) ensures Owned(next, d, MembersIn(next, g)[d]) {
      assert Holds(h, g, d) && Owned(h, d, MembersIn(h, g)[d]);
    }
  }

  /** Changing what is on the streams, or the rosters, leaves the indexes as they are. */
  lemma SameTablesIndexed(h: HubState, next: HubState)
    requires SameTables(h, next)
    ensures Indexed(h) ==> Indexed(next)
    ensures Exact(h) ==> Exact(next)
  {
    if Indexed(h) {
      OwnedInShape(h, next);
      forall d, g | Lists(next, d, g) ensures Current(next, d, g) {
        assert Lists(h, d, g) && Current(h, d, g);
      }
      forall g | g in next.groupSubs ensures MembersIn(next, g).Keys != {} {
        assert MembersIn(next, g) == MembersIn(h, g);
      }
    }
    if Exact(h) {
      forall g, d | Holds(next, g, d) ensures Lists(next, d, g) { assert Holds(h, g, d); }
    }
  }

  /** Tables, rosters and streams the same but for what has been put on them. */
  predicate SameShape(h: HubState, next: HubState)
  {
    && SameTables(h, next) && next.voice == h.voice
    && forall c | 0 <= c < |h.channels| :: next.channels[c].open == h.channels[c].open
  }

  lemma {:induction false} AllSentToShape(h: HubState, d: DeviceId, messages: seq<ServerMessage>)
    ensures SameShape(h, AllSentTo(h, d, messages))
    decreases |messages|
  {
    if messages != [] {
      AllSentToShape(h, d, messages[..|messages| - 1]);
    }
  }

  lemma {:induction false} LeavesPublishedShape(
      h: HubState, d: DeviceId, groups: seq<GroupId>, last: map<GroupId, Roster>)
    requires forall i | 0 <= i < |groups| :: groups[i] in last && d in last[groups[i]]
    ensures SameShape(h, LeavesPublished(h, d, groups, last))
    decreases |groups|
  {
    if groups != [] {
      LeavesPublishedShape(h, d, groups[..|groups| - 1], last);
    }
  }

  lemma StaleWhenDropped(h: HubState, d: DeviceId, groups: seq<GroupId>, g: GroupId)
    requires Indexed(h) && Lists(h, d, g) && g !in groups
    ensures !Exact(Registered(h, d, groups))
  {
    RegisteredMembers(h, d, groups, g);
    var next := Registered(h, d, groups);
    assert Current(h, d, g);
    assert Holds(next, g, d) && !Lists(next, d, g);
  }

  /** Registering keeps the tables exact iff the device is new or its new list covers its old. */
  lemma RegisterExactIff(h: HubState, d: DeviceId, groups: seq<GroupId>)
    requires Indexed(h) && Exact(h)
    ensures Exact(Registered(h, d, groups)) <==> forall g | Lists(h, d, g) :: g in groups
  {
    var next := Registered(h, d, groups);
    if g :| Lists(h, d, g) && g !in groups {
      StaleWhenDropped(h, d, groups, g);
    } else {
      forall g, e | Holds(next, g, e) ensures Lists(next, e, g) {
        RegisteredMembers(h, d, groups, g);
        if e != d || g !in groups { assert Holds(h, g, e) && Lists(h, e, g); }
      }
    }
  }

  // ----- the hub itself -----

  lemma RegisteredNext(h: HubState, d: DeviceId, groups: seq<GroupId>, i: nat)
    requires i < |groups|
    ensures
      var was := Registered(h, d, groups[..i]);
      Registered(h, d, groups[..i + 1]).groupSubs
      == was.groupSubs[groups[i] := MembersIn(was, groups[i])[d := |h.channels|]]
  {
    var less, more, g := groups[..i], groups[..i + 1], groups[i];
    assert more == less + [g];
    var was, now := Registered(h, d, less), Registered(h, d, more).groupSubs;
    RegisteredMembers(h, d, less, g);
    if g in less { assert MembersIn(h, g)[d := |h.channels|][d := |h.channels|] == MembersIn(h, g)[d := |h.channels|]; }
    forall f ensures f in now <==> f in was.groupSubs || f == g {
      assert f in more <==> f in less || f == g;
    }
    forall f | f in now && f != g ensures now[f] == was.groupSubs[f] {
      assert f in more <==> f in less;
    }
  }

  lemma WithoutNext(subs: map<GroupId, Members>, d: DeviceId, groups: seq<GroupId>, i: nat)
    requires i < |groups|
    ensures
      var was := Without(subs, d, groups[..i]);
      var g := groups[i];
      Without(subs, d, groups[..i + 1]) ==
      if g !in was then was
      else if was[g] - {d} == map[] then was - {g}
      else was[g := was[g] - {d}]
  {
    assert groups[..i + 1] == groups[..i] + [groups[i]];
    var g := groups[i];
    if g in subs && g in groups[..i] {
      assert subs[g] - {d} - {d} == subs[g] - {d};
    }
  }

  class Hub {
    var groupSubs: map<GroupId, Members>
    var deviceSubs: map<DeviceId, Sender>
    var deviceGroups: map<DeviceId, seq<GroupId>>
    var channels: seq<Channel>
    var voice: map<GroupId, Roster>

    ghost function View(): HubState
      reads this
    {
      HubState(groupSubs, deviceSubs, deviceGroups, channels, voice)
    }

    constructor ()
      ensures View() == EMPTY
    {
      groupSubs, deviceSubs, deviceGroups, channels, voice := map[], map[], map[], [], map[];
    }

    method Register(device: DeviceId, groups: seq<GroupId>) returns (rx: Sender)
      modifies this
      ensures rx == |old(channels)|
      ensures View() == Registered(old(View()), device, groups)
    {
      rx := |channels|;
      channels := channels + [Channel(device, true, [], [], 0)];
      for i := 0 to |groups|
        invariant groupSubs == Registered(old(View()), device, groups[..i]).groupSubs
        invariant deviceSubs == old(deviceSubs) && deviceGroups == old(deviceGroups) && voice == old(voice)
        invariant channels == old(channels) + [Channel(device, true, [], [], 0)]
      {
        RegisteredNext(old(View()), device, groups, i);
        var group := groups[i];
        var members := if group in groupSubs then groupSubs[group] else map[];
        groupSubs := groupSubs[group := members[device := rx]];
      }
      assert groups[..|groups|] == groups;
      deviceSubs := deviceSubs[device := rx];
      deviceGroups := deviceGroups[device := groups];
    }

    method Deregister(device: DeviceId)
      modifies this
      ensures View() == Deregistered(old(View()), device)
    {
      deviceSubs := deviceSubs - {device};
      if device in deviceGroups {
        var groups := deviceGroups[device];
        deviceGroups := deviceGroups - {device};
        for i := 0 to |groups|
          invariant groupSubs == Without(old(groupSubs), device, groups[..i])
          invariant deviceSubs == old(deviceSubs) - {device}
          invariant deviceGroups == old(deviceGroups) - {device}
          invariant channels == old(channels) && voice == old(voice)
        {
          WithoutNext(old(groupSubs), device, groups, i);
          var group := groups[i];
          if group in groupSubs {
            var members := groupSubs[group] - {device};
            groupSubs := if members == map[] then groupSubs - {group} else groupSubs[group := members];
          }
        }
        assert groups[..|groups|] == groups;
      }
    }

    method Unregister(device: DeviceId) returns (left: seq<GroupId>)
      requires AllOwned(View())
      modifies this
      ensures ListsRosters(old(View()), device, left)
      ensures View() == Unregistered(old(View()), device, left)
    {
      Deregister(device);
      DeregisteredOwned(old(View()), device);
      ghost var start := VoiceDropped(View(), device);
      var last: map<GroupId, Roster> := voice;
      left := VoiceDropDevice(device);
      OwnedInShape(Deregistered(old(View()), device), start);
      for i := 0 to |left|
        invariant View() == LeavesPublished(start, device, left[..i], last)
        invariant AllOwned(View())
      {
        assert left[..i + 1][..i] == left[..i];
        var group := left[i];
        DeliverToGroup(group, VoiceParticipant(group, device, last[group][device], false), None);
        LeavesPublishedShape(start, device, left[..i + 1], last);
        OwnedInShape(start, View());
      }
      assert left[..|left|] == left;
    }

    method Subscribe(device: DeviceId, group: GroupId)
      modifies this
      ensures View() == Subscribed(old(View()), device, group)
    {
      if device in deviceSubs {
        var members := if group in groupSubs then groupSubs[group] else map[];
        groupSubs := groupSubs[group := members[device := deviceSubs[device]]];
        var groups := if device in deviceGroups then deviceGroups[device] else [];
        deviceGroups := deviceGroups[device := if group in groups then groups else groups + [group]];
      }
    }

    method IsConnected(device: DeviceId) returns (yes: bool)
      ensures yes <==> device in View().deviceSubs
    {
      yes := device in deviceSubs;
    }

    method SendToDevice(device: DeviceId, message: ServerMessage)
      requires AllOwned(View())
      modifies this`channels
      ensures View() == SentTo(old(View()), device, message)
    {
      if device in deviceSubs {
        var tx := deviceSubs[device];
        assert Owned(View(), device, tx);
        channels := channels[tx := TrySend(channels[tx], message)];
      }
    }

    /** Members are visited in no particular order. */
    method DeliverToGroup(group: GroupId, message: ServerMessage, exclude: Option<DeviceId>)
      requires AllOwned(View())
      modifies this`channels
      ensures View() == Delivered(old(View()), group, message, exclude)
    {
      ghost var h := View();
      if group in groupSubs {
        var members := groupSubs[group];
        var todo := members.Keys;
        while todo != {}
          invariant todo <= members.Keys
          invariant |channels| == |h.channels|
          invariant forall c | 0 <= c < |channels| ::
            channels[c] == (if Targeted(h, group, exclude, c) && h.channels[c].device !in todo
                            then TrySend(h.channels[c], message) else h.channels[c])
          decreases todo
        {
          var device :| device in todo;
          todo := todo - {device};
          var tx := members[device];
          assert Holds(h, group, device) && Owned(h, device, tx);
          if exclude != Some(device) {
            channels := channels[tx := TrySend(channels[tx], message)];
          }
        }
      }
      assert channels == Delivered(h, group, message, exclude).channels;
    }

    method VoiceJoin(group: GroupId, device: DeviceId, state: VoiceState) returns (participants: seq<DeviceId>)
      modifies this`voice
      ensures View() == VoiceJoined(old(View()), group, device, state)
      ensures ListsDevices(voice[group], participants)
    {
      var members := if group in voice then voice[group] else map[];
      voice := voice[group := members[device := state]];
      participants := ListDevices(voice[group]);
    }

    method VoiceLeave(group: GroupId, device: DeviceId) returns (last: Option<VoiceState>)
      modifies this`voice
      ensures View() == VoiceLeft(old(View()), group, device)
      ensures last == var r := RosterOf(old(View()), group); if device in r then Some(r[device]) else None
    {
      last := None;
      if group in voice {
        var members: Roster := voice[group];
        if device in members { last := Some(members[device]); }
        members := members - {device};
        voice := if members == map[] then voice - {group} else voice[group := members];
      }
    }

    /** Groups are visited in no particular order; those the device was in are listed. */
    method VoiceDropDevice(device: DeviceId) returns (left: seq<GroupId>)
      modifies this`voice
      ensures View() == VoiceDropped(old(View()), device)
      ensures ListsRosters(old(View()), device, left)
    {
      left := [];
      var todo := voice.Keys;
      while todo != {}
        invariant DroppedSoFar(old(voice), voice, todo, device)
        invariant LeftSoFar(old(voice), left, todo, device)
        decreases todo
      {
        var group :| group in todo;
        DropNext(old(voice), voice, todo, device, group);
        LeftNext(old(voice), left, todo, device, group);
        todo := todo - {group};
        var members: Roster := voice[group];
        if device in members { left := left + [group]; }
        members := members - {device};
        voice := if members == map[] then voice - {group} else voice[group := members];
      }
    }
  }

  /** The groups still to be visited are as they were; the others have lost the device. */
  ghost predicate DroppedSoFar(was: map<GroupId, Roster>, now: map<GroupId, Roster>, todo: set<GroupId>, d: DeviceId)
  {
    && todo <= now.Keys <= was.Keys
    && (forall g | g in todo :: now[g] == was[g])
    && (forall g | g in was && g !in todo :: g in now <==> was[g] - {d} != map[])
    && (forall g | g in now && g !in todo :: now[g] == was[g] - {d})
  }

  /** The groups visited that had the device are listed. */
  predicate LeftSoFar(was: map<GroupId, Roster>, left: seq<GroupId>, todo: set<GroupId>, d: DeviceId)
  {
    && (forall i | 0 <= i < |left| :: left[i] in was && left[i] !in todo && d in was[left[i]])
    && (forall g | g in was && g !in todo && d in was[g] :: g in left)
    && (forall i, j | 0 <= i < j < |left| :: left[i] != left[j])
  }

  lemma DropNext(was: map<GroupId, Roster>, now: map<GroupId, Roster>, todo: set<GroupId>, d: DeviceId, g: GroupId)
    requires DroppedSoFar(was, now, todo, d) && g in todo
    ensures now[g] == was[g]
    ensures DroppedSoFar(was, if now[g] - {d} == map[] then now - {g} else now[g := now[g] - {d}], todo - {g}, d)
  {
  }

  lemma LeftNext(was: map<GroupId, Roster>, left: seq<GroupId>, todo: set<GroupId>, d: DeviceId, g: GroupId)
    requires LeftSoFar(was, left, todo, d) && g in todo && g in was
    ensures LeftSoFar(was, if d in was[g] then left + [g] else left, todo - {g}, d)
  {
  }

  predicate ListsDevices(r: Roster, devices: seq<DeviceId>)
  {
    && (forall i | 0 <= i < |devices| :: devices[i] in r)
    && (forall d | d in r :: d in devices)
    && (forall i, j | 0 <= i < j < |devices| :: devices[i] != devices[j])
  }

  method ListDevices(r: Roster) returns (devices: seq<DeviceId>)
    ensures ListsDevices(r, devices)
  {
    devices := [];
    var todo := r.Keys;
    while todo != {}
      invariant todo <= r.Keys
      invariant forall i | 0 <= i < |devices| :: devices[i] in r && devices[i] !in todo
      invariant forall d | d in r && d !in todo :: d in devices
      invariant forall i, j | 0 <= i < j < |devices| :: devices[i] != devices[j]
      decreases todo
    {
      var d :| d in todo;
      todo := todo - {d};
      devices := devices + [d];
    }
  }
}
