/** A run in which the client of a voice channel goes on showing somebody who has left: it was
    disconnected at the time, and keeps what it folded from its earlier stream. */
module StaleRoster {
  import opened Options
  import opened Hub
  import opened Messaging
  import opened VoiceRoster
  import Membership

  const X: DeviceId := 1
  const Y: DeviceId := 2
  const G: GroupId := 5

  const FLAGS := Flags(false, false, false)

  // The user of each device has the device's number, and both are members of the channel.

  function StateOf(d: DeviceId): VoiceState { StateFor(d, FLAGS) }

  function Joined(d: DeviceId): ServerMessage { VoiceParticipant(G, d, StateOf(d), true) }

  function Left(d: DeviceId): ServerMessage { VoiceParticipant(G, d, StateOf(d), false) }

  predicate Start(s: Svc)
  {
    && s.hub == EMPTY && s.inbox == map[] && s.owners == map[X := X, Y := Y]
    && G in s.world.groups && s.world.members == {(G, X), (G, Y)}
  }

  function Stream(d: DeviceId, open: bool, sent: seq<ServerMessage>): Channel { Channel(d, open, sent, [], |sent|) }

  const BOTH: map<GroupId, Members> := map[G := map[X := 0, Y := 1]]
  const ONLY_Y: map<GroupId, Members> := map[G := map[Y := 1]]

  function Hub0(): HubState
  {
    HubState(map[G := map[X := 0]], map[X := 0], map[X := [G]], [Stream(X, true, [])], map[])
  }

  function Hub1(): HubState
  {
    HubState(BOTH, map[X := 0, Y := 1], map[X := [G], Y := [G]], [Stream(X, true, []), Stream(Y, true, [])], map[])
  }

  function Hub2(): HubState
  {
    HubState(BOTH, map[X := 0, Y := 1], map[X := [G], Y := [G]],
             [Stream(X, true, [Joined(Y)]), Stream(Y, true, [Joined(Y)])], map[G := map[Y := StateOf(Y)]])
  }

  function Hub3(): HubState
  {
    HubState(ONLY_Y, map[Y := 1], map[Y := [G]],
             [Stream(X, false, [Joined(Y)]), Stream(Y, true, [Joined(Y)])], map[G := map[Y := StateOf(Y)]])
  }

  function Hub4(): HubState
  {
    HubState(ONLY_Y, map[Y := 1], map[Y := [G]],
             [Stream(X, false, [Joined(Y)]), Stream(Y, true, [Joined(Y), Left(Y)])], map[])
  }

  function Hub5(): HubState
  {
    HubState(map[G := map[X := 2, Y := 1]], map[X := 2, Y := 1], map[X := [G], Y := [G]],
             [Stream(X, false, [Joined(Y)]), Stream(Y, true, [Joined(Y), Left(Y)]), Stream(X, true, [])], map[])
  }

  function Hub6(): HubState
  {
    HubState(map[G := map[X := 2, Y := 1]], map[X := 2, Y := 1], map[X := [G], Y := [G]],
             [Stream(X, false, [Joined(Y)]), Stream(Y, true, [Joined(Y), Left(Y), Joined(X)]),
              Stream(X, true, [Joined(X)])],
             map[G := map[X := StateOf(X)]])
  }

  // ----- the steps -----

  lemma Opens(s: Svc, d: DeviceId)
    requires s.inbox == map[]
    ensures Opened(s, d, [G]).hub == Registered(s.hub, d, [G]) && Opened(s, d, [G]).inbox == map[]
  {
    assert RebuiltAll(InboxOf(s.inbox, d)) == [];
    assert AllSentTo(Registered(s.hub, d, [G]), d, []) == Registered(s.hub, d, [G]);
  }

  lemma FirstOpens()
    ensures Registered(EMPTY, X, [G]) == Hub0()
  {
    RegisteredMembers(EMPTY, X, [G], G);
    assert Registered(EMPTY, X, [G]).groupSubs == Hub0().groupSubs;
  }

  lemma SecondOpens()
    ensures Registered(Hub0(), Y, [G]) == Hub1()
  {
    RegisteredMembers(Hub0(), Y, [G], G);
    assert Registered(Hub0(), Y, [G]).groupSubs == BOTH;
    assert Registered(Hub0(), Y, [G]).channels == Hub1().channels;
  }

  lemma SubscribedAgain(h: HubState, d: DeviceId)
    requires Lists(h, d, G) && Current(h, d, G)
    ensures Subscribed(h, d, G) == h
  {
    var members: Members := h.groupSubs[G];
    assert members[d := members[d]] == members;
    assert h.groupSubs[G := members] == h.groupSubs;
    assert h.deviceGroups[d := h.deviceGroups[d]] == h.deviceGroups;
  }

  lemma TakesMessage(d: DeviceId, sent: seq<ServerMessage>, m: ServerMessage)
    requires |sent| < CAPACITY
    ensures TrySend(Stream(d, true, sent), m) == Stream(d, true, sent + [m])
  {
  }

  /** The join of a device that is alone in the channel: no burst, just the event. */
  lemma JoinsAlone(h: HubState, d: DeviceId)
    requires h.voice == map[] && d in h.deviceSubs && Lists(h, d, G) && Current(h, d, G)
    ensures ListsDevices(RosterOf(h, G)[d := StateOf(d)], [d])
    ensures JoinedVoice(h, d, G, StateOf(d), [d]) ==
      Delivered(h.(voice := map[G := map[d := StateOf(d)]]), G, Joined(d), None)
  {
    var roster: Roster := RosterOf(h, G)[d := StateOf(d)];
    assert roster == map[d := StateOf(d)];
    SubscribedAgain(h, d);
    assert [d][..0] == [];
    assert Burst(G, roster, [d], d) == [];
    assert VoiceJoined(h, G, d, StateOf(d)) == h.(voice := map[G := map[d := StateOf(d)]]);
  }

  lemma SecondJoins()
    ensures ListsDevices(RosterOf(Hub1(), G)[Y := StateOf(Y)], [Y])
    ensures JoinedVoice(Hub1(), Y, G, StateOf(Y), [Y]) == Hub2()
  {
    JoinsAlone(Hub1(), Y);
    var with := Hub1().(voice := map[G := map[Y := StateOf(Y)]]);
    assert Targeted(with, G, None, 0) && Targeted(with, G, None, 1);
    TakesMessage(X, [], Joined(Y));
    TakesMessage(Y, [], Joined(Y));
    var after := Delivered(with, G, Joined(Y), None).channels;
    assert after[0] == Hub2().channels[0] && after[1] == Hub2().channels[1];
    assert after == Hub2().channels;
  }

  lemma FirstCloses()
    ensures ListsRosters(Hub2(), X, []) && Closed(Hub2(), 0, []) == Hub3()
  {
    var hung := Hung(Hub2(), 0);
    assert Lists(hung, X, G);
    DeregisteredMembers(hung, X, G);
    var out := Deregistered(hung, X);
    assert BOTH[G] - {X} == map[Y := 1] && Y in BOTH[G] - {X};
    assert out.groupSubs == ONLY_Y;
    assert out.deviceSubs == map[Y := 1] && out.deviceGroups == map[Y := [G]];
    assert hung.channels == Hub3().channels;
    var r: Roster := map[Y := StateOf(Y)];
    assert r - {X} == r && Y in r;
    assert VoiceDropped(out, X).voice == Hub2().voice;
    assert LeavesPublished(VoiceDropped(out, X), X, [], Hub2().voice) == VoiceDropped(out, X);
  }

  lemma SecondLeaves()
    ensures LeftVoice(Hub3(), Y, G, StateOf(Y)) == Hub4()
  {
    var h := Hub3();
    SubscribedAgain(h, Y);
    var r: Roster := map[Y := StateOf(Y)];
    assert r - {Y} == map[];
    var off := h.(voice := map[]);
    assert h.voice - {G} == map[];
    assert VoiceLeft(h, G, Y) == off;
    assert !Targeted(off, G, None, 0) && Targeted(off, G, None, 1);
    TakesMessage(Y, [Joined(Y)], Left(Y));
    assert [Joined(Y)] + [Left(Y)] == [Joined(Y), Left(Y)];
    var after := Delivered(off, G, Left(Y), None).channels;
    assert after[0] == Hub4().channels[0] && after[1] == Hub4().channels[1];
    assert after == Hub4().channels;
  }

  lemma FirstReopens()
    ensures Registered(Hub4(), X, [G]) == Hub5()
  {
    RegisteredMembers(Hub4(), X, [G], G);
    var y: Members := map[Y := 1];
    assert y[X := 2] == map[X := 2, Y := 1];
    assert Registered(Hub4(), X, [G]).groupSubs == Hub5().groupSubs;
    assert Registered(Hub4(), X, [G]).deviceSubs == Hub5().deviceSubs;
    assert Registered(Hub4(), X, [G]).channels == Hub5().channels;
  }

  lemma FirstJoins()
    ensures ListsDevices(RosterOf(Hub5(), G)[X := StateOf(X)], [X])
    ensures JoinedVoice(Hub5(), X, G, StateOf(X), [X]) == Hub6()
  {
    JoinsAlone(Hub5(), X);
    var with := Hub5().(voice := map[G := map[X := StateOf(X)]]);
    assert !Targeted(with, G, None, 0) && Targeted(with, G, None, 1) && Targeted(with, G, None, 2);
    TakesMessage(Y, [Joined(Y), Left(Y)], Joined(X));
    TakesMessage(X, [], Joined(X));
    assert [Joined(Y), Left(Y)] + [Joined(X)] == [Joined(Y), Left(Y), Joined(X)];
    var after := Delivered(with, G, Joined(X), None).channels;
    assert after[0] == Hub6().channels[0] && after[1] == Hub6().channels[1] && after[2] == Hub6().channels[2];
    assert after == Hub6().channels;
  }

  // ----- the run -----

  function FirstOps(): seq<Op>
  {
    [Open(X, [G])] + ([Open(Y, [G])] + ([UpdateVoice(Y, G, true, FLAGS, [Y])] + ([Close(0, [])] + [])))
  }

  function SecondOps(): seq<Op>
  {
    [UpdateVoice(Y, G, false, FLAGS, [])] + ([Open(X, [G])] + ([UpdateVoice(X, G, true, FLAGS, [X])] + []))
  }

  lemma RunCons(s: Svc, op: Op, rest: seq<Op>)
    requires Enabled(s, op) && Possible(Step(s, op), rest)
    ensures Possible(s, [op] + rest) && Run(s, [op] + rest) == Run(Step(s, op), rest)
  {
    assert ([op] + rest)[1..] == rest;
  }

  predicate JoinsTo(h: HubState, d: DeviceId, next: HubState)
  {
    && d in h.deviceSubs && ListsDevices(RosterOf(h, G)[d := StateOf(d)], [d])
    && next == JoinedVoice(h, d, G, StateOf(d), [d])
  }

  /** A step of the service as it was at the start but for its hub. */
  lemma StepsTo(s: Svc, h: HubState, op: Op, next: HubState)
    requires Start(s.(hub := EMPTY)) && s.hub == h
    requires
      || (op == Open(X, [G]) && X !in h.deviceSubs && next == Registered(h, X, [G]))
      || (op == Open(Y, [G]) && Y !in h.deviceSubs && next == Registered(h, Y, [G]))
      || (op == Close(0, []) && 0 < |h.channels| && h.channels[0].open && ListsRosters(h, h.channels[0].device, [])
          && next == Closed(h, 0, []))
      || (op == UpdateVoice(Y, G, true, FLAGS, [Y]) && JoinsTo(h, Y, next))
      || (op == UpdateVoice(X, G, true, FLAGS, [X]) && JoinsTo(h, X, next))
      || (op == UpdateVoice(Y, G, false, FLAGS, []) && Y in h.deviceSubs && next == LeftVoice(h, Y, G, StateOf(Y)))
    ensures Enabled(s, op) && Step(s, op) == s.(hub := next)
  {
    if op.Open? {
      Opens(s, op.device);
      assert s.inbox - {op.device} == s.inbox;
    }
  }

  lemma FirstHalf(s: Svc)
    requires Start(s)
    ensures Possible(s, FirstOps()) && Run(s, FirstOps()) == s.(hub := Hub3())
  {
    var s0, s1, s2 := s.(hub := Hub0()), s.(hub := Hub1()), s.(hub := Hub2());
    FirstOpens();
    SecondOpens();
    SecondJoins();
    FirstCloses();
    StepsTo(s, EMPTY, Open(X, [G]), Hub0());
    StepsTo(s0, Hub0(), Open(Y, [G]), Hub1());
    StepsTo(s1, Hub1(), UpdateVoice(Y, G, true, FLAGS, [Y]), Hub2());
    StepsTo(s2, Hub2(), Close(0, []), Hub3());
    RunCons(s2, Close(0, []), []);
    RunCons(s1, UpdateVoice(Y, G, true, FLAGS, [Y]), [Close(0, [])] + []);
    RunCons(s0, Open(Y, [G]), [UpdateVoice(Y, G, true, FLAGS, [Y])] + ([Close(0, [])] + []));
    RunCons(s, Open(X, [G]), [Open(Y, [G])] + ([UpdateVoice(Y, G, true, FLAGS, [Y])] + ([Close(0, [])] + [])));
  }

  lemma SecondHalf(s: Svc)
    requires Start(s.(hub := EMPTY)) && s.hub == Hub3()
    ensures Possible(s, SecondOps()) && Run(s, SecondOps()) == s.(hub := Hub6())
  {
    var s4, s5 := s.(hub := Hub4()), s.(hub := Hub5());
    SecondLeaves();
    FirstReopens();
    FirstJoins();
    StepsTo(s, Hub3(), UpdateVoice(Y, G, false, FLAGS, []), Hub4());
    StepsTo(s4, Hub4(), Open(X, [G]), Hub5());
    StepsTo(s5, Hub5(), UpdateVoice(X, G, true, FLAGS, [X]), Hub6());
    RunCons(s5, UpdateVoice(X, G, true, FLAGS, [X]), []);
    RunCons(s4, Open(X, [G]), [UpdateVoice(X, G, true, FLAGS, [X])] + []);
    RunCons(s, UpdateVoice(Y, G, false, FLAGS, []), [Open(X, [G])] + ([UpdateVoice(X, G, true, FLAGS, [X])] + []));
  }

  lemma {:induction false} RunAfter(s: Svc, ops: seq<Op>, more: seq<Op>)
    requires Possible(s, ops) && Possible(Run(s, ops), more)
    ensures Possible(s, ops + more) && Run(s, ops + more) == Run(Run(s, ops), more)
    decreases |ops|
  {
    if ops == [] {
      assert ops + more == more;
    } else {
      assert (ops + more)[0] == ops[0] && (ops + more)[1..] == ops[1..] + more;
      RunAfter(Step(s, ops[0]), ops[1..], more);
    }
  }

  lemma {:induction false} VoiceOfOne(m: ServerMessage)
    requires VoiceOn(G, m)
    ensures VoiceOf([m], G) == [m]
  {
    VoiceOfSnoc([], m, G);
    assert [] + [m] == [m];
  }

  lemma FoldOfOne(m: ServerMessage)
    requires VoiceOn(G, m) && m.joined
    ensures Fold([m]) == map[m.device := m.state]
  {
    FoldSnoc([], m);
    assert [] + [m] == [m];
  }

  /** At the end the client has been told of Y on its first stream and of itself on its second. */
  lemma ToldAtEnd()
    ensures ToldBy(Hub6().channels, X, G) == [Joined(Y), Joined(X)]
    ensures ToldBy(Hub6().channels[..2], X, G) == [Joined(Y)]
  {
    var cs := Hub6().channels;
    VoiceOfOne(Joined(Y));
    VoiceOfOne(Joined(X));
    assert cs[..1][..0] == [] && cs[..2][..1] == cs[..1];
    assert ToldBy(cs[..1], X, G) == [Joined(Y)];
    assert ToldBy(cs[..2], X, G) == [Joined(Y)];
    assert ToldBy(cs, X, G) == [Joined(Y)] + [Joined(X)];
  }

  lemma ShownAtEnd()
    ensures Fold([Joined(Y)]) == map[Y := StateOf(Y)] && Fold([Joined(X)]) == map[X := StateOf(X)]
    ensures Fold([Joined(Y), Joined(X)]) == map[X := StateOf(X), Y := StateOf(Y)]
    ensures Mentioned([Joined(X)]) == {X}
  {
    FoldOfOne(Joined(Y));
    FoldOfOne(Joined(X));
    FoldSnoc([Joined(Y)], Joined(X));
    assert [Joined(Y)] + [Joined(X)] == [Joined(Y), Joined(X)];
    var y: Roster := map[Y := StateOf(Y)];
    assert y[X := StateOf(X)] == map[X := StateOf(X), Y := StateOf(Y)];
    MentionedSnoc([], Joined(X));
    assert [] + [Joined(X)] == [Joined(X)];
  }

  lemma AtEnd()
    ensures
      var h := Hub6();
      && X in h.deviceSubs && Connected(h, X) && NoneLost(h, X, G)
      && RosterOf(h, G) == map[X := StateOf(X)] && Heard(h, X, G) == [Joined(X)]
      && Shown(h, X, G) == Fold([Joined(Y), Joined(X)]) && LeftOver(h, X, G) == Fold([Joined(Y)])
  {
    ToldAtEnd();
    VoiceOfOne(Joined(X));
  }

  lemma WholeRun(s: Svc)
    requires Start(s)
    ensures Possible(s, FirstOps() + SecondOps()) && Run(s, FirstOps() + SecondOps()).hub == Hub6()
  {
    FirstHalf(s);
    SecondHalf(s.(hub := Hub3()));
    RunAfter(s, FirstOps(), SecondOps());
  }

  /** X hears Y join and is disconnected; Y leaves; X reconnects and joins. Nothing has been refused
      and the current stream gives the roster, which is X alone, but the client still shows Y, left
      over from the first stream and not mentioned since. */
  lemma ClientShowsWhoLeft(s: Svc)
    requires Start(s)
    ensures
      Possible(s, FirstOps() + SecondOps()) &&
      var h := Run(s, FirstOps() + SecondOps()).hub;
      && X in h.deviceSubs && Connected(h, X) && NoneLost(h, X, G)
      && RosterOf(h, G) == map[X := StateOf(X)] && Fold(Heard(h, X, G)) == RosterOf(h, G)
      && Shown(h, X, G) == map[X := StateOf(X), Y := StateOf(Y)]
      && Y in LeftOver(h, X, G) && Y !in Mentioned(Heard(h, X, G))
  {
    WholeRun(s);
    AtEnd();
    ShownAtEnd();
  }
}
