/** The messaging service over the hub and the store: opening and closing streams, private
    messages with the mailbox of offline devices, and voice updates. Each handler is one step. */
module Messaging {
  import opened Options
  import opened Hub
  import Membership

  datatype Kind = OfWelcome | OfCommit | OfPrivate | Unknown(name: string)

  datatype InboxItem = InboxItem(kind: Kind, group: GroupId, payload: Bytes)

  /** A private message as the store returns it once written. */
  datatype Row = Row(ciphertext: seq<nat>, epoch: nat, secs: int, nanos: int, number: nat)

  datatype Flags = Flags(muted: bool, cameraOn: bool, screenOn: bool)

  datatype Svc = Svc(
    world: Membership.World,
    owners: map<DeviceId, UserId>,
    revoked: set<DeviceId>,
    inbox: map<DeviceId, seq<InboxItem>>,
    hub: HubState)

  function InboxOf(inbox: map<DeviceId, seq<InboxItem>>, d: DeviceId): seq<InboxItem>
  {
    if d in inbox then inbox[d] else []
  }

  // ----- opening a stream -----

  /** The notification a queued item is drained as; unknown kinds and unreadable payloads are skipped. */
  function Rebuilt(item: InboxItem): Option<ServerMessage>
  {
    match item.kind
    case OfWelcome => Some(Welcome(item.group, item.payload))
    case OfCommit => Some(Commit(item.group, item.payload, 0))
    case OfPrivate => PrivateNotification(item.group, item.payload)
    case Unknown(_) => None
  }

  function RebuiltAll(items: seq<InboxItem>): seq<ServerMessage>
    decreases |items|
  {
    if items == [] then []
    else
      var n := |items| - 1;
      RebuiltAll(items[..n]) + (if Rebuilt(items[n]).Some? then [Rebuilt(items[n]).value] else [])
  }

  /** The groups the store lists for the device's user. */
  predicate ListsGroups(s: Svc, d: DeviceId, groups: seq<GroupId>)
    requires d in s.owners
  {
    && (forall i | 0 <= i < |groups| :: (groups[i], s.owners[d]) in s.world.members)
    && (forall m | m in s.world.members && m.1 == s.owners[d] :: m.0 in groups)
  }

  function Opened(s: Svc, d: DeviceId, groups: seq<GroupId>): Svc
  {
    s.(hub := AllSentTo(Registered(s.hub, d, groups), d, RebuiltAll(InboxOf(s.inbox, d))),
       inbox := s.inbox - {d})
  }

  // ----- private messages -----

  function Live(group: GroupId, sender: UserId, row: Row): ServerMessage
  {
    PrivateMessage(group, sender, row.ciphertext, row.epoch, row.secs, row.nanos, row.number)
  }

  function Mail(group: GroupId, sender: UserId, row: Row): InboxItem
  {
    InboxItem(OfPrivate, group,
      EncodePrivateInbox(PrivateInboxPayload(row.ciphertext, sender, row.epoch, row.secs, row.nanos, row.number)))
  }

  /** A queued private message is drained as the notification a connected device would have got. */
  lemma MailRebuildsLive(group: GroupId, sender: UserId, row: Row)
    ensures Rebuilt(Mail(group, sender, row)) == Some(Live(group, sender, row))
  {
  }

  predicate MemberDevice(s: Svc, g: GroupId, d: DeviceId)
  {
    d in s.owners && d !in s.revoked && (g, s.owners[d]) in s.world.members
  }

  predicate Accepted(s: Svc, d: DeviceId, group: GroupId, row: Row)
    requires d in s.owners
  {
    row.ciphertext != [] && (group, s.owners[d]) in s.world.members
  }

  function Queued(inbox: map<DeviceId, seq<InboxItem>>, targets: set<DeviceId>, item: InboxItem)
    : map<DeviceId, seq<InboxItem>>
  {
    map d | d in inbox.Keys + targets :: if d in targets then InboxOf(inbox, d) + [item] else inbox[d]
  }

  lemma QueuedInbox(inbox: map<DeviceId, seq<InboxItem>>, targets: set<DeviceId>, item: InboxItem, d: DeviceId)
    ensures InboxOf(Queued(inbox, targets, item), d)
         == if d in targets then InboxOf(inbox, d) + [item] else InboxOf(inbox, d)
  {
  }

  function Offline(s: Svc, group: GroupId, sender: DeviceId): set<DeviceId>
  {
    set d | d in s.owners && MemberDevice(s, group, d) && d != sender && d !in s.hub.deviceSubs
  }

  function PrivateSent(s: Svc, d: DeviceId, group: GroupId, row: Row): Svc
    requires d in s.owners
  {
    if !Accepted(s, d, group, row) then s
    else
      s.(hub := Delivered(s.hub, group, Live(group, s.owners[d], row), Some(d)),
         inbox := Queued(s.inbox, Offline(s, group, d), Mail(group, s.owners[d], row)))
  }

  // ----- voice -----

  /** The participants of a roster in the order listed, the newcomer itself left out. */
  function Burst(group: GroupId, roster: Roster, devices: seq<DeviceId>, newcomer: DeviceId): seq<ServerMessage>
    requires forall i | 0 <= i < |devices| :: devices[i] in roster
    decreases |devices|
  {
    if devices == [] then []
    else
      var n := |devices| - 1;
      Burst(group, roster, devices[..n], newcomer) +
      (if devices[n] == newcomer then [] else [VoiceParticipant(group, devices[n], roster[devices[n]], true)])
  }

  function JoinedVoice(h: HubState, d: DeviceId, group: GroupId, st: VoiceState, order: seq<DeviceId>): HubState
    requires ListsDevices(RosterOf(h, group)[d := st], order)
  {
    var joined := VoiceJoined(Subscribed(h, d, group), group, d, st);
    AllSentTo(Delivered(joined, group, VoiceParticipant(group, d, st, true), None),
              d, Burst(group, RosterOf(h, group)[d := st], order, d))
  }

  function LeftVoice(h: HubState, d: DeviceId, group: GroupId, st: VoiceState): HubState
  {
    Delivered(VoiceLeft(Subscribed(h, d, group), group, d), group, VoiceParticipant(group, d, st, false), None)
  }

  function StateFor(user: UserId, f: Flags): VoiceState
  {
    VoiceState(user, f.muted, f.cameraOn, f.screenOn)
  }

  function VoiceUpdated(s: Svc, d: DeviceId, group: GroupId, joined: bool, f: Flags, order: seq<DeviceId>): Svc
    requires d in s.owners
    requires joined ==> ListsDevices(RosterOf(s.hub, group)[d := StateFor(s.owners[d], f)], order)
  {
    var (world, outcome) := Membership.Participates(s.world, s.owners[d], group);
    var st := StateFor(s.owners[d], f);
    if outcome.Failed? then s
    else s.(world := world,
            hub := if joined then JoinedVoice(s.hub, d, group, st, order) else LeftVoice(s.hub, d, group, st))
  }

  // ----- runs -----

  /** `groups`, `order` and `row` are what the store and the hash maps happen to list or draw.
      `Publish`, `Direct` and `Enqueue` are the other users of the hub and the mailbox: public
      messages, commits, welcomes, voice signals, alerts. `Administer` is any change of accounts,
      roles, groups or membership. */
  datatype Op =
    | Open(device: DeviceId, groups: seq<GroupId>)
    | Close(sender: Sender, left: seq<GroupId>)
    | SendPrivate(device: DeviceId, group: GroupId, row: Row)
    | UpdateVoice(device: DeviceId, group: GroupId, joined: bool, flags: Flags, order: seq<DeviceId>)
    | Publish(group: GroupId, message: ServerMessage, exclude: Option<DeviceId>)
    | Direct(device: DeviceId, message: ServerMessage)
    | Enqueue(device: DeviceId, item: InboxItem)
    | SubscribeDevice(device: DeviceId, group: GroupId)
    | Administer(policy: Membership.Policy, request: Membership.Op)
    | AddDevice(device: DeviceId, user: UserId)
    | RevokeDevice(device: DeviceId)
    | Take(sender: Sender)

  predicate Plain(m: ServerMessage)
  {
    !m.PrivateMessage? && !m.VoiceParticipant?
  }

  /** A device opens no second stream while it has one, and voice updates arrive on a live stream. */
  predicate Enabled(s: Svc, op: Op)
  {
    match op
    case Open(d, groups) => d in s.owners && d !in s.hub.deviceSubs && ListsGroups(s, d, groups)
    case Close(c, left) =>
      c < |s.hub.channels| && s.hub.channels[c].open && ListsRosters(s.hub, s.hub.channels[c].device, left)
    case SendPrivate(d, _, _) => d in s.owners
    case UpdateVoice(d, g, joined, f, order) =>
      d in s.owners && d in s.hub.deviceSubs &&
      (joined ==> ListsDevices(RosterOf(s.hub, g)[d := StateFor(s.owners[d], f)], order))
    case Publish(_, m, _) => Plain(m)
    case Direct(_, m) => Plain(m)
    case Enqueue(_, item) => item.kind != OfPrivate
    case AddDevice(d, _) => d !in s.owners
    case Take(c) => c < |s.hub.channels| && s.hub.channels[c].unread > 0
    case _ => true
  }

  function Step(s: Svc, op: Op): Svc
    requires Enabled(s, op)
  {
    match op
    case Open(d, groups) => Opened(s, d, groups)
    case Close(c, left) => s.(hub := Closed(s.hub, c, left))
    case SendPrivate(d, g, row) => PrivateSent(s, d, g, row)
    case UpdateVoice(d, g, joined, f, order) => VoiceUpdated(s, d, g, joined, f, order)
    case Publish(g, m, exclude) => s.(hub := Delivered(s.hub, g, m, exclude))
    case Direct(d, m) => s.(hub := SentTo(s.hub, d, m))
    case Enqueue(d, item) => s.(inbox := s.inbox[d := InboxOf(s.inbox, d) + [item]])
    case SubscribeDevice(d, g) => s.(hub := Subscribed(s.hub, d, g))
    case Administer(policy, request) => s.(world := Membership.Step(policy, s.world, request).0)
    case AddDevice(d, user) => s.(owners := s.owners[d := user])
    case RevokeDevice(d) => s.(revoked := s.revoked + {d})
    case Take(c) => s.(hub := Taken(s.hub, c))
  }

  predicate Possible(s: Svc, ops: seq<Op>)
    decreases |ops|
  {
    ops == [] || (Enabled(s, ops[0]) && Possible(Step(s, ops[0]), ops[1..]))
  }

  function Run(s: Svc, ops: seq<Op>): Svc
    requires Possible(s, ops)
    decreases |ops|
  {
    if ops == [] then s else Run(Step(s, ops[0]), ops[1..])
  }

  // ----- what every step keeps -----

  /** The current stream of a device is the last one it opened. */
  ghost predicate Latest(h: HubState)
  {
    forall d, c | d in h.deviceSubs && h.deviceSubs[d] < c < |h.channels| :: h.channels[c].device != d
  }

  ghost predicate RosteredConnected(h: HubState)
  {
    forall g, d | d in RosterOf(h, g) :: d in h.deviceSubs
  }

  ghost predicate Sound(h: HubState)
  {
    Indexed(h) && Exact(h) && Latest(h) && RosteredConnected(h)
  }

  lemma SameTablesSound(h: HubState, next: HubState)
    requires Sound(h) && SameTables(h, next) && next.voice == h.voice
    ensures Sound(next)
  {
    SameTablesIndexed(h, next);
    forall d, c | d in next.deviceSubs && next.deviceSubs[d] < c < |next.channels|
      ensures next.channels[c].device != d
    {
      assert h.channels[c].device != d;
    }
    forall g, d | d in RosterOf(next, g) ensures d in next.deviceSubs { assert d in RosterOf(h, g); }
  }

  lemma RegisteredSound(h: HubState, d: DeviceId, groups: seq<GroupId>)
    requires Sound(h) && d !in h.deviceSubs
    ensures Sound(Registered(h, d, groups))
  {
    var next := Registered(h, d, groups);
    RegisteredIndexed(h, d, groups);
    RegisterExactIff(h, d, groups);
    forall g, e | e in RosterOf(next, g) ensures e in next.deviceSubs { assert e in RosterOf(h, g); }
    forall e | e in next.deviceSubs && e != d ensures next.deviceSubs[e] < |h.channels| {
      assert Owned(h, e, h.deviceSubs[e]);
    }
  }

  lemma SubscribedSound(h: HubState, d: DeviceId, g: GroupId)
    requires Sound(h)
    ensures Sound(Subscribed(h, d, g))
  {
    SubscribedIndexed(h, d, g);
    SubscribedExact(h, d, g);
    var next := Subscribed(h, d, g);
    forall f, e | e in RosterOf(next, f) ensures e in next.deviceSubs { assert e in RosterOf(h, f); }
  }

  lemma RosterLeft(h: HubState, g: GroupId, d: DeviceId, f: GroupId)
    ensures RosterOf(VoiceLeft(h, g, d), f) == if f == g then RosterOf(h, f) - {d} else RosterOf(h, f)
  {
  }

  lemma RosterDropped(h: HubState, d: DeviceId, f: GroupId)
    ensures RosterOf(VoiceDropped(h, d), f) == RosterOf(h, f) - {d}
  {
  }

  /** Streams and routing tables as they were, rosters with connected devices only. */
  lemma RostersSound(h: HubState, next: HubState)
    requires Indexed(h) && Exact(h) && Latest(h) && RosteredConnected(next)
    requires SameTables(h, next)
    ensures Sound(next)
  {
    SameTablesIndexed(h, next);
    forall d, c | d in next.deviceSubs && next.deviceSubs[d] < c < |next.channels|
      ensures next.channels[c].device != d
    {
      assert h.channels[c].device != d;
    }
  }

  lemma ClosedSound(h: HubState, c: Sender, left: seq<GroupId>)
    requires Sound(h) && c < |h.channels| && ListsRosters(h, h.channels[c].device, left)
    ensures Sound(Closed(h, c, left))
  {
    var d := h.channels[c].device;
    var hung := Hung(h, c);
    SameTablesSound(h, hung);
    DeregisteredIndexed(hung, d);
    DeregisteredExact(hung, d);
    var out := Deregistered(hung, d);
    var gone := VoiceDropped(out, d);
    forall g, e | e in RosterOf(gone, g) ensures e in gone.deviceSubs {
      RosterDropped(out, d, g);
      assert e in RosterOf(h, g);
    }
    RostersSound(out, gone);
    LeavesPublishedShape(gone, d, left, h.voice);
    SameTablesSound(gone, Closed(h, c, left));
  }

  lemma DeliveredSound(h: HubState, g: GroupId, m: ServerMessage, exclude: Option<DeviceId>)
    requires Sound(h)
    ensures Sound(Delivered(h, g, m, exclude))
  {
    SameTablesSound(h, Delivered(h, g, m, exclude));
  }

  lemma AllSentToSound(h: HubState, d: DeviceId, messages: seq<ServerMessage>)
    requires Sound(h)
    ensures Sound(AllSentTo(h, d, messages))
  {
    AllSentToShape(h, d, messages);
    SameTablesSound(h, AllSentTo(h, d, messages));
  }

  lemma VoiceJoinedSound(h: HubState, g: GroupId, d: DeviceId, st: VoiceState)
    requires Sound(h) && d in h.deviceSubs
    ensures Sound(VoiceJoined(h, g, d, st))
  {
    var joined := VoiceJoined(h, g, d, st);
    forall f, e | e in RosterOf(joined, f) ensures e in joined.deviceSubs {
      if f != g || e != d { assert e in RosterOf(h, f); }
    }
    RostersSound(h, joined);
  }

  lemma VoiceLeftConnected(h: HubState, g: GroupId, d: DeviceId)
    requires RosteredConnected(h)
    ensures RosteredConnected(VoiceLeft(h, g, d))
  {
    var off := VoiceLeft(h, g, d);
    forall f, e | e in RosterOf(off, f) ensures e in off.deviceSubs {
      RosterLeft(h, g, d, f);
      assert e in RosterOf(h, f);
    }
  }

  lemma VoiceLeftSound(h: HubState, g: GroupId, d: DeviceId)
    requires Sound(h)
    ensures Sound(VoiceLeft(h, g, d))
  {
    VoiceLeftConnected(h, g, d);
    RostersSound(h, VoiceLeft(h, g, d));
  }

  lemma JoinedSound(h: HubState, d: DeviceId, g: GroupId, st: VoiceState, order: seq<DeviceId>)
    requires Sound(h) && d in h.deviceSubs && ListsDevices(RosterOf(h, g)[d := st], order)
    ensures Sound(JoinedVoice(h, d, g, st, order))
  {
    var on := Subscribed(h, d, g);
    SubscribedSound(h, d, g);
    VoiceJoinedSound(on, g, d, st);
    var joined := VoiceJoined(on, g, d, st);
    var event := VoiceParticipant(g, d, st, true);
    DeliveredSound(joined, g, event, None);
    AllSentToSound(Delivered(joined, g, event, None), d, Burst(g, RosterOf(h, g)[d := st], order, d));
  }

  lemma LeftSound(h: HubState, d: DeviceId, g: GroupId, st: VoiceState)
    requires Sound(h)
    ensures Sound(LeftVoice(h, d, g, st))
  {
    SubscribedSound(h, d, g);
    VoiceLeftSound(Subscribed(h, d, g), g, d);
    DeliveredSound(VoiceLeft(Subscribed(h, d, g), g, d), g, VoiceParticipant(g, d, st, false), None);
  }

  lemma OpenedSound(s: Svc, d: DeviceId, groups: seq<GroupId>)
    requires Sound(s.hub) && d !in s.hub.deviceSubs
    ensures Sound(Opened(s, d, groups).hub)
  {
    RegisteredSound(s.hub, d, groups);
    AllSentToSound(Registered(s.hub, d, groups), d, RebuiltAll(InboxOf(s.inbox, d)));
  }

  lemma VoiceStepSound(s: Svc, op: Op)
    requires Sound(s.hub) && Enabled(s, op) && op.UpdateVoice?
    ensures Sound(Step(s, op).hub)
  {
    if op.joined {
      JoinedSound(s.hub, op.device, op.group, StateFor(s.owners[op.device], op.flags), op.order);
    } else {
      LeftSound(s.hub, op.device, op.group, StateFor(s.owners[op.device], op.flags));
    }
  }

  /** What a step leaves alone in the hub when it neither opens, closes, subscribes nor touches voice. */
  lemma PlainStepShape(s: Svc, op: Op)
    requires Enabled(s, op) && !op.Open? && !op.Close? && !op.UpdateVoice? && !op.SubscribeDevice?
    ensures SameTables(s.hub, Step(s, op).hub) && Step(s, op).hub.voice == s.hub.voice
  {
  }

  lemma StepSound(s: Svc, op: Op)
    requires Sound(s.hub) && Enabled(s, op)
    ensures Sound(Step(s, op).hub)
  {
    if op.Open? {
      OpenedSound(s, op.device, op.groups);
    } else if op.Close? {
      ClosedSound(s.hub, op.sender, op.left);
    } else if op.UpdateVoice? {
      VoiceStepSound(s, op);
    } else if op.SubscribeDevice? {
      SubscribedSound(s.hub, op.device, op.group);
    } else {
      PlainStepShape(s, op);
      SameTablesSound(s.hub, Step(s, op).hub);
    }
  }
}
