/** Over every run of hub operations the routing tables agree, and delivery reaches exactly the
    connected devices that list the group. */
module HubRuns {
  import opened Options
  import opened Hub

  datatype Op =
    | Register(device: DeviceId, groups: seq<GroupId>)
    | Close(sender: Sender, order: seq<GroupId>)
    | Subscribe(device: DeviceId, group: GroupId)
    | Deliver(group: GroupId, message: ServerMessage, exclude: Option<DeviceId>)
    | SendTo(device: DeviceId, message: ServerMessage)
    | VoiceJoin(group: GroupId, device: DeviceId, state: VoiceState)
    | VoiceLeave(group: GroupId, device: DeviceId)
    | Take(sender: Sender)

  predicate Enabled(h: HubState, op: Op)
  {
    match op
    case Close(c, order) =>
      c < |h.channels| && h.channels[c].open && ListsRosters(h, h.channels[c].device, order)
    case Take(c) => c < |h.channels| && h.channels[c].unread > 0
    case _ => true
  }

  function Step(h: HubState, op: Op): HubState
    requires Enabled(h, op)
  {
    match op
    case Register(d, groups) => Registered(h, d, groups)
    case Close(c, order) => Closed(h, c, order)
    case Subscribe(d, g) => Subscribed(h, d, g)
    case Deliver(g, m, exclude) => Delivered(h, g, m, exclude)
    case SendTo(d, m) => SentTo(h, d, m)
    case VoiceJoin(g, d, st) => VoiceJoined(h, g, d, st)
    case VoiceLeave(g, d) => VoiceLeft(h, g, d)
    case Take(c) => Taken(h, c)
  }

  predicate Possible(h: HubState, ops: seq<Op>)
    decreases |ops|
  {
    ops == [] || (Enabled(h, ops[0]) && Possible(Step(h, ops[0]), ops[1..]))
  }

  function Run(h: HubState, ops: seq<Op>): HubState
    requires Possible(h, ops)
    decreases |ops|
  {
    if ops == [] then h else Run(Step(h, ops[0]), ops[1..])
  }

  /** A device registered while it is registered brings along every group it listed. */
  predicate Covers(h: HubState, d: DeviceId, groups: seq<GroupId>)
  {
    d in h.deviceGroups ==> forall i | 0 <= i < |h.deviceGroups[d]| :: h.deviceGroups[d][i] in groups
  }

  predicate Covering(h: HubState, ops: seq<Op>)
    requires Possible(h, ops)
    decreases |ops|
  {
    ops == [] ||
      ((ops[0].Register? ==> Covers(h, ops[0].device, ops[0].groups)) && Covering(Step(h, ops[0]), ops[1..]))
  }

  lemma ClosedKeeps(h: HubState, c: Sender, order: seq<GroupId>)
    requires Enabled(h, Close(c, order))
    ensures Indexed(h) ==> Indexed(Closed(h, c, order))
    ensures Exact(h) ==> Exact(Closed(h, c, order))
  {
    var d := h.channels[c].device;
    var shut := Hung(h, c);
    SameTablesIndexed(h, shut);
    if Indexed(h) { DeregisteredIndexed(shut, d); }
    if Exact(h) { DeregisteredExact(shut, d); }
    var gone := VoiceDropped(Deregistered(shut, d), d);
    SameTablesIndexed(Deregistered(shut, d), gone);
    LeavesPublishedShape(gone, d, order, h.voice);
    SameTablesIndexed(gone, Closed(h, c, order));
  }

  lemma OtherStepTables(h: HubState, op: Op)
    requires Enabled(h, op) && !op.Register? && !op.Close? && !op.Subscribe?
    ensures SameTables(h, Step(h, op))
  {
  }

  lemma StepIndexed(h: HubState, op: Op)
    requires Indexed(h) && Enabled(h, op)
    ensures Indexed(Step(h, op))
  {
    if op.Register? {
      RegisteredIndexed(h, op.device, op.groups);
    } else if op.Close? {
      ClosedKeeps(h, op.sender, op.order);
    } else if op.Subscribe? {
      SubscribedIndexed(h, op.device, op.group);
    } else {
      OtherStepTables(h, op);
      SameTablesIndexed(h, Step(h, op));
    }
  }

  lemma StepExact(h: HubState, op: Op)
    requires Indexed(h) && Exact(h) && Enabled(h, op)
    requires op.Register? ==> Covers(h, op.device, op.groups)
    ensures Exact(Step(h, op))
  {
    if op.Register? {
      RegisterExactIff(h, op.device, op.groups);
    } else if op.Close? {
      ClosedKeeps(h, op.sender, op.order);
    } else if op.Subscribe? {
      SubscribedExact(h, op.device, op.group);
    } else {
      OtherStepTables(h, op);
      SameTablesIndexed(h, Step(h, op));
    }
  }

  /** In every run the indexes agree; and when whoever registers anew lists at least what it listed,
      they hold nothing else. */
  lemma {:induction false} IndexesAgree(h: HubState, ops: seq<Op>)
    requires Indexed(h) && Possible(h, ops)
    ensures Indexed(Run(h, ops))
    ensures Exact(h) && Covering(h, ops) ==> Exact(Run(h, ops))
    decreases |ops|
  {
    if ops != [] {
      StepIndexed(h, ops[0]);
      if Exact(h) && Covering(h, ops) { StepExact(h, ops[0]); }
      IndexesAgree(Step(h, ops[0]), ops[1..]);
    }
  }

  // ----- delivery -----

  /** The stream is the current one of a connected device that lists the group and is not excluded. */
  predicate Due(h: HubState, g: GroupId, exclude: Option<DeviceId>, c: Sender)
    requires c < |h.channels|
  {
    var d := h.channels[c].device;
    d in h.deviceSubs && h.deviceSubs[d] == c && Lists(h, d, g) && exclude != Some(d)
  }

  /** Every message to a group is offered to exactly the streams it is due to. */
  ghost predicate DeliversRight(h: HubState)
  {
    forall g, exclude, c: Sender | c < |h.channels| :: Targeted(h, g, exclude, c) <==> Due(h, g, exclude, c)
  }

  lemma TargetedWhenDue(h: HubState, g: GroupId, exclude: Option<DeviceId>, c: Sender)
    requires Indexed(h) && c < |h.channels|
    ensures Due(h, g, exclude, c) ==> Targeted(h, g, exclude, c)
    ensures Exact(h) ==> (Targeted(h, g, exclude, c) ==> Due(h, g, exclude, c))
  {
    var d := h.channels[c].device;
    assert Lists(h, d, g) ==> Current(h, d, g);
    if Exact(h) { assert Holds(h, g, d) ==> Lists(h, d, g); }
  }

  /** Delivery is right if and only if the tables hold no subscription its device does not list. */
  lemma DeliveryRightIffExact(h: HubState)
    requires Indexed(h)
    ensures DeliversRight(h) <==> Exact(h)
  {
    if Exact(h) {
      forall g, exclude, c: Sender | c < |h.channels| ensures Targeted(h, g, exclude, c) <==> Due(h, g, exclude, c) {
        TargetedWhenDue(h, g, exclude, c);
      }
    }
    if DeliversRight(h) {
      forall g, d | Holds(h, g, d) ensures Lists(h, d, g) {
        var c := MembersIn(h, g)[d];
        assert Owned(h, d, c);
        assert Targeted(h, g, None, c) && Due(h, g, None, c);
      }
    }
  }

  /** So registering a device leaves delivery right if and only if its list covers what it listed. */
  lemma RegisteringDeliversIffCovers(h: HubState, d: DeviceId, groups: seq<GroupId>)
    requires Indexed(h) && Exact(h)
    ensures DeliversRight(Registered(h, d, groups)) <==> Covers(h, d, groups)
  {
    RegisteredIndexed(h, d, groups);
    DeliveryRightIffExact(Registered(h, d, groups));
    RegisterExactIff(h, d, groups);
    assert Covers(h, d, groups) <==> forall g | Lists(h, d, g) :: g in groups;
  }

  /** After any such run a message to a group is offered, once, to the current stream of every
      connected device that lists the group, the excluded one aside, and to no other stream. */
  lemma DeliveryReaches(ops: seq<Op>, g: GroupId, m: ServerMessage, exclude: Option<DeviceId>, c: Sender)
    requires Possible(EMPTY, ops) && Covering(EMPTY, ops)
    requires c < |Run(EMPTY, ops).channels|
    ensures
      var h := Run(EMPTY, ops);
      Delivered(h, g, m, exclude).channels[c] ==
        if Due(h, g, exclude, c) then TrySend(h.channels[c], m) else h.channels[c]
  {
    IndexesAgree(EMPTY, ops);
    TargetedWhenDue(Run(EMPTY, ops), g, exclude, c);
  }

  /** Without that discipline a stream that is no longer a device's own can keep receiving. */
  lemma StaleStreamStillReceives(d: DeviceId, g: GroupId, m: ServerMessage)
    ensures
      var ops := [Register(d, [g]), Register(d, [])];
      && Possible(EMPTY, ops) && !Covering(EMPTY, ops)
      && var h := Run(EMPTY, ops);
      !Exact(h) && |h.channels| == 2 && d in h.deviceSubs && h.deviceSubs[d] == 1
      && Delivered(h, g, m, None).channels[0].sent == [m]
  {
    var ops := [Register(d, [g]), Register(d, [])];
    var h := Registered(EMPTY, d, [g]);
    var h2 := Registered(h, d, []);
    assert ops[1..] == [Register(d, [])] && ops[1..][1..] == [];
    assert Run(EMPTY, ops) == Run(h, ops[1..]) == Run(h2, []) == h2;
    RegisteredMembers(EMPTY, d, [g], g);
    RegisteredMembers(h, d, [], g);
    assert Holds(h2, g, d) && !Lists(h2, d, g);
    assert Targeted(h2, g, None, 0);
  }
}
