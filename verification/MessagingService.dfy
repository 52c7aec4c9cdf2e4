/** The handlers of the messaging service as they run over the hub and the store. */
module MessagingService {
  import opened Options
  import opened Hub
  import opened Messaging
  import Membership

  predicate ListsMemberDevices(s: Svc, group: GroupId, devices: seq<DeviceId>)
  {
    && (forall i | 0 <= i < |devices| :: MemberDevice(s, group, devices[i]))
    && (forall d | d in s.owners && MemberDevice(s, group, d) :: d in devices)
    && (forall i, j | 0 <= i < j < |devices| :: devices[i] != devices[j])
  }

  lemma RebuiltNext(items: seq<InboxItem>, i: nat)
    requires i < |items|
    ensures RebuiltAll(items[..i + 1])
         == RebuiltAll(items[..i]) + (if Rebuilt(items[i]).Some? then [Rebuilt(items[i]).value] else [])
  {
    assert items[..i + 1][..i] == items[..i];
  }

  lemma AllSentSnoc(h: HubState, d: DeviceId, ms: seq<ServerMessage>, m: ServerMessage)
    ensures AllSentTo(h, d, ms + [m]) == SentTo(AllSentTo(h, d, ms), d, m)
  {
    assert (ms + [m])[..|ms|] == ms;
  }

  lemma AllSentOwned(h: HubState, d: DeviceId, ms: seq<ServerMessage>)
    requires AllOwned(h)
    ensures AllOwned(AllSentTo(h, d, ms))
  {
    AllSentToShape(h, d, ms);
    OwnedInShape(h, AllSentTo(h, d, ms));
  }

  lemma BurstNext(group: GroupId, r: Roster, order: seq<DeviceId>, d: DeviceId, i: nat)
    requires i < |order| && forall k | 0 <= k < |order| :: order[k] in r
    ensures Burst(group, r, order[..i + 1], d) == Burst(group, r, order[..i], d) +
      (if order[i] == d then [] else [VoiceParticipant(group, order[i], r[order[i]], true)])
  {
    assert order[..i + 1][..i] == order[..i];
  }

  lemma QueuedNext(inbox: map<DeviceId, seq<InboxItem>>, targets: set<DeviceId>, item: InboxItem, d: DeviceId)
    requires d !in targets
    ensures Queued(inbox, targets + {d}, item)
         == var was := Queued(inbox, targets, item); was[d := InboxOf(was, d) + [item]]
  {
  }

  function Before(devices: seq<DeviceId>, i: nat): set<DeviceId>
    requires i <= |devices|
  {
    set k | 0 <= k < i :: devices[k]
  }

  lemma BeforeNext(devices: seq<DeviceId>, i: nat)
    requires i < |devices| && forall k, l | 0 <= k < l < |devices| :: devices[k] != devices[l]
    ensures Before(devices, i + 1) == Before(devices, i) + {devices[i]} && devices[i] !in Before(devices, i)
  {
  }

  /** Of the devices listed, those away that come before the `i`th. */
  function AwayBefore(s: Svc, group: GroupId, devices: seq<DeviceId>, sender: DeviceId, i: nat): set<DeviceId>
    requires i <= |devices|
  {
    Offline(s, group, sender) * Before(devices, i)
  }

  lemma AwayNext(s: Svc, group: GroupId, devices: seq<DeviceId>, sender: DeviceId, i: nat)
    requires ListsMemberDevices(s, group, devices) && i < |devices|
    ensures devices[i] !in AwayBefore(s, group, devices, sender, i)
    ensures AwayBefore(s, group, devices, sender, i + 1) == AwayBefore(s, group, devices, sender, i) +
      (if devices[i] != sender && devices[i] !in s.hub.deviceSubs then {devices[i]} else {})
  {
    BeforeNext(devices, i);
    assert MemberDevice(s, group, devices[i]);
  }

  lemma AwayAll(s: Svc, group: GroupId, devices: seq<DeviceId>, sender: DeviceId)
    requires ListsMemberDevices(s, group, devices)
    ensures AwayBefore(s, group, devices, sender, |devices|) == Offline(s, group, sender)
  {
    forall d | d in Offline(s, group, sender) ensures d in Before(devices, |devices|) {
      assert d in devices;
    }
  }

  /** Delivering a message changes neither who is listed nor who is away. */
  lemma SameAway(s: Svc, h: HubState, group: GroupId, devices: seq<DeviceId>, d: DeviceId)
    requires h.deviceSubs == s.hub.deviceSubs
    ensures ListsMemberDevices(s.(hub := h), group, devices) <==> ListsMemberDevices(s, group, devices)
    ensures Offline(s.(hub := h), group, d) == Offline(s, group, d)
  {
  }

  class MessagingSvc {
    const hub: Hub
    var world: Membership.World
    var owners: map<DeviceId, UserId>
    var revoked: set<DeviceId>
    var inbox: map<DeviceId, seq<InboxItem>>

    ghost function View(): Svc
      reads this, hub
    {
      Svc(world, owners, revoked, inbox, hub.View())
    }

    constructor (hub: Hub, world: Membership.World)
      ensures this.hub == hub && View() == Svc(world, map[], {}, map[], hub.View())
    {
      this.hub := hub;
      this.world, owners, revoked, inbox := world, map[], {}, map[];
    }

    /** Registers the stream and drains the mailbox into it, item by item. */
    method OpenStream(device: DeviceId, groups: seq<GroupId>) returns (rx: Sender)
      requires AllOwned(hub.View())
      modifies this`inbox, hub
      ensures rx == |old(hub.channels)|
      ensures View() == Opened(old(View()), device, groups)
    {
      rx := hub.Register(device, groups);
      RegisteredOwned(old(hub.View()), device, groups);
      ghost var start := hub.View();
      var items := InboxOf(inbox, device);
      inbox := inbox - {device};
      for i := 0 to |items|
        invariant hub.View() == AllSentTo(start, device, RebuiltAll(items[..i]))
        invariant AllOwned(hub.View()) && inbox == old(inbox) - {device}
      {
        RebuiltNext(items, i);
        var message := Rebuilt(items[i]);
        if message.Some? {
          AllSentSnoc(start, device, RebuiltAll(items[..i]), message.value);
          hub.SendToDevice(device, message.value);
          AllSentOwned(start, device, RebuiltAll(items[..i]) + [message.value]);
        } else {
          assert RebuiltAll(items[..i]) + [] == RebuiltAll(items[..i]);
        }
      }
      assert items[..|items|] == items;
    }

    /** Queues the item for the devices listed that are not connected, the sender's aside. */
    method MailAway(device: DeviceId, group: GroupId, mail: InboxItem, devices: seq<DeviceId>)
      requires ListsMemberDevices(View(), group, devices)
      modifies this`inbox
      ensures inbox == Queued(old(inbox), Offline(old(View()), group, device), mail)
    {
      ghost var s := View();
      for i := 0 to |devices|
        invariant inbox == Queued(old(inbox), AwayBefore(s, group, devices, device, i), mail)
      {
        var dev := devices[i];
        var connected := hub.IsConnected(dev);
        AwayNext(s, group, devices, device, i);
        if dev != device && !connected {
          QueuedNext(old(inbox), AwayBefore(s, group, devices, device, i), mail, dev);
          inbox := inbox[dev := InboxOf(inbox, dev) + [mail]];
        } else {
          assert AwayBefore(s, group, devices, device, i + 1) == AwayBefore(s, group, devices, device, i);
        }
      }
      AwayAll(s, group, devices, device);
    }

    /** `row` is what the store returns for the message; `devices` what it lists for the group. */
    method HandlePrivateMessage(device: DeviceId, group: GroupId, row: Row, devices: seq<DeviceId>)
      returns (outcome: Membership.Outcome)
      requires AllOwned(hub.View()) && device in owners && ListsMemberDevices(View(), group, devices)
      modifies this`inbox, hub
      ensures View() == PrivateSent(old(View()), device, group, row)
      ensures outcome ==
        if row.ciphertext == [] then Membership.Failed(Membership.InvalidArgument)
        else if (group, owners[device]) !in world.members then Membership.Failed(Membership.PermissionDenied)
        else Membership.Done
    {
      if row.ciphertext == [] { return Membership.Failed(Membership.InvalidArgument); }
      var user := owners[device];
      if (group, user) !in world.members { return Membership.Failed(Membership.PermissionDenied); }
      hub.DeliverToGroup(group, Live(group, user, row), Some(device));
      assert View() == old(View()).(hub := hub.View());
      SameAway(old(View()), hub.View(), group, devices, device);
      MailAway(device, group, Mail(group, user, row), devices);
      outcome := Membership.Done;
    }

    /** Sends the participants listed to the newcomer, itself left out. */
    method BurstTo(device: DeviceId, group: GroupId, roster: Roster, order: seq<DeviceId>)
      requires AllOwned(hub.View()) && forall i | 0 <= i < |order| :: order[i] in roster
      modifies hub
      ensures hub.View() == AllSentTo(old(hub.View()), device, Burst(group, roster, order, device))
    {
      ghost var told := hub.View();
      for i := 0 to |order|
        invariant hub.View() == AllSentTo(told, device, Burst(group, roster, order[..i], device))
        invariant AllOwned(hub.View())
      {
        BurstNext(group, roster, order, device, i);
        ghost var sent := Burst(group, roster, order[..i], device);
        if order[i] != device {
          var event := VoiceParticipant(group, order[i], roster[order[i]], true);
          AllSentSnoc(told, device, sent, event);
          hub.SendToDevice(device, event);
          AllSentOwned(told, device, sent + [event]);
        } else {
          assert sent + [] == sent;
        }
      }
      assert order[..|order|] == order;
    }

    method JoinVoice(device: DeviceId, group: GroupId, state: VoiceState) returns (order: seq<DeviceId>)
      requires AllOwned(hub.View())
      modifies hub
      ensures ListsDevices(RosterOf(old(hub.View()), group)[device := state], order)
      ensures hub.View() == JoinedVoice(old(hub.View()), device, group, state, order)
    {
      ghost var h := hub.View();
      hub.Subscribe(device, group);
      SubscribedOwned(h, device, group);
      order := hub.VoiceJoin(group, device, state);
      var roster := hub.voice[group];
      ghost var joined := hub.View();
      OwnedInShape(Subscribed(h, device, group), joined);
      hub.DeliverToGroup(group, VoiceParticipant(group, device, state, true), None);
      OwnedInShape(joined, hub.View());
      BurstTo(device, group, roster, order);
    }

    method LeaveVoice(device: DeviceId, group: GroupId, state: VoiceState)
      requires AllOwned(hub.View())
      modifies hub
      ensures hub.View() == LeftVoice(old(hub.View()), device, group, state)
    {
      ghost var h := hub.View();
      hub.Subscribe(device, group);
      SubscribedOwned(h, device, group);
      var _ := hub.VoiceLeave(group, device);
      OwnedInShape(Subscribed(h, device, group), hub.View());
      hub.DeliverToGroup(group, VoiceParticipant(group, device, state, false), None);
    }

    /** `order` is the order in which the roster happens to be listed to a newcomer. */
    method HandleVoiceState(device: DeviceId, group: GroupId, joined: bool, flags: Flags)
      returns (outcome: Membership.Outcome, order: seq<DeviceId>)
      requires AllOwned(hub.View()) && device in owners
      modifies this`world, hub
      ensures joined ==>
        ListsDevices(RosterOf(old(hub.View()), group)[device := StateFor(owners[device], flags)], order)
      ensures View() == VoiceUpdated(old(View()), device, group, joined, flags, order)
      ensures outcome == Membership.Participates(old(world), owners[device], group).1
    {
      var state := StateFor(owners[device], flags);
      var (next, verdict) := Membership.Participates(world, owners[device], group);
      outcome := verdict;
      if outcome.Failed? {
        var roster: Roster := if group in hub.voice then hub.voice[group] else map[];
        order := ListDevices(roster[device := state]);
        return;
      }
      world := next;
      if joined {
        order := JoinVoice(device, group, state);
      } else {
        order := [];
        LeaveVoice(device, group, state);
      }
    }
  }
}
