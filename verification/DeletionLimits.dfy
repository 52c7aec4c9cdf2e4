/** The rate limiter over whole runs of the server: which calls the handlers make of it, and how
    many channels and categories one user can delete in a while. */
module DeletionLimits {
  import opened Directory
  import opened Options
  import opened Membership
  import Guardrails

  // ----- the calls a run makes of the limiter -----

  /** The calls of a list of removals: one for each other member reached, until one is refused. */
  function RemovalCalls(p: Policy, w: World, caller: UserId, group: GroupId, removals: seq<(SentId, real)>)
    : seq<Guardrails.Call>
    decreases |removals|
  {
    if removals == [] || removals[0].0.None? then []
    else
      var id, call := removals[0].0.value, CallFor(w, caller, Guardrails.KickMember, removals[0].1);
      if id == caller then RemovalCalls(p, Gone(w, group, caller), caller, group, removals[1..])
      else if !May(w.db, caller, KICK_MEMBERS) then []
      else if !Passes(p, w, call) then [call]
      else [call] + RemovalCalls(p, Gone(Asked(p, w, call), group, id), caller, group, removals[1..])
  }

  /** Whether a request other than removals reaches the limiter. */
  predicate Reaches(w: World, op: Op)
  {
    match op
    case CreatePublic(caller, _, name, _, _) => name != "" && May(w.db, caller, MANAGE_CHANNELS)
    case DeleteGroup(caller, group, _) =>
      group in w.groups && w.groups[group] == Public && May(w.db, caller, MANAGE_CHANNELS)
    case DeleteCategory(caller, _, _) => May(w.db, caller, MANAGE_CHANNELS)
    case Kick(caller, _, target, _) =>
      target != caller && May(w.db, caller, KICK_MEMBERS) && CanActOn(w.db, caller, target)
    case Ban(caller, target, _) =>
      May(w.db, caller, BAN_MEMBERS) && !IsOwner(w.db, target) && CanActOn(w.db, caller, target)
    case _ => false
  }

  function CallOf(w: World, op: Op): Guardrails.Call
    requires Reaches(w, op)
  {
    match op
    case CreatePublic(caller, _, name, recent, now) => CreationCall(w, caller, name, recent, now)
    case DeleteGroup(caller, _, now) => CallFor(w, caller, Guardrails.DeleteChannel, now)
    case DeleteCategory(caller, _, now) => CallFor(w, caller, Guardrails.DeleteChannel, now)
    case Kick(caller, _, _, now) => CallFor(w, caller, Guardrails.KickMember, now)
    case Ban(caller, _, now) => CallFor(w, caller, Guardrails.BanMember, now)
  }

  function CallsOf(p: Policy, w: World, op: Op): seq<Guardrails.Call>
  {
    if op.RemoveMembers? then RemovalCalls(p, w, op.caller, op.group, op.removals)
    else if Reaches(w, op) then [CallOf(w, op)]
    else []
  }

  function RunCalls(p: Policy, w: World, ops: seq<Op>): seq<Guardrails.Call>
    decreases |ops|
  {
    if ops == [] then [] else CallsOf(p, w, ops[0]) + RunCalls(p, Step(p, w, ops[0]).0, ops[1..])
  }

  // ----- they are all that happens to the limiter -----

  lemma RunOfOne(blockOwner: bool, m: Guardrails.Buckets, call: Guardrails.Call)
    ensures Guardrails.Run(blockOwner, m, [call]) == Guardrails.Step(blockOwner, m, call)
  {
    assert [call][1..] == [];
    assert Guardrails.Run(blockOwner, Guardrails.Step(blockOwner, m, call), []) == Guardrails.Step(blockOwner, m, call);
  }

  lemma RunOfMore(blockOwner: bool, m: Guardrails.Buckets, call: Guardrails.Call, more: seq<Guardrails.Call>)
    ensures Guardrails.Run(blockOwner, m, [call] + more)
         == Guardrails.Run(blockOwner, Guardrails.Step(blockOwner, m, call), more)
  {
    assert ([call] + more)[1..] == more;
  }

  lemma {:induction false} RemovalBuckets(p: Policy, w: World, caller: UserId, group: GroupId,
                                          removals: seq<(SentId, real)>)
    ensures Removed(p, w, caller, group, removals).0.buckets
         == Guardrails.Run(p.blockOwner, w.buckets, RemovalCalls(p, w, caller, group, removals))
    decreases |removals|
  {
    if removals != [] && removals[0].0.Some? {
      var id, call := removals[0].0.value, CallFor(w, caller, Guardrails.KickMember, removals[0].1);
      if id == caller {
        RemovalBuckets(p, Gone(w, group, caller), caller, group, removals[1..]);
      } else if May(w.db, caller, KICK_MEMBERS) {
        if Passes(p, w, call) {
          var next := Gone(Asked(p, w, call), group, id);
          RemovalBuckets(p, next, caller, group, removals[1..]);
          RunOfMore(p.blockOwner, w.buckets, call, RemovalCalls(p, next, caller, group, removals[1..]));
        } else {
          RunOfOne(p.blockOwner, w.buckets, call);
        }
      }
    }
  }

  lemma UnlimitedBuckets(p: Policy, w: World, op: Op)
    requires !op.RemoveMembers? && !Reaches(w, op)
    ensures Step(p, w, op).0.buckets == w.buckets
  {
    if op.AddMembers? {
      AddedKeepsAccounts(w, op.group, op.ids);
    } else if op.CreatePrivate? && op.id !in w.groups {
      EnlistedKeeps(w.(groups := w.groups[op.id := Private], members := w.members + {(op.id, op.caller)}),
                    op.id, op.ids);
    }
  }

  lemma LimitedBuckets(p: Policy, w: World, op: Op)
    requires Reaches(w, op)
    ensures Step(p, w, op).0.buckets == Asked(p, w, CallOf(w, op)).buckets
    ensures Step(p, w, op).1 == if Passes(p, w, CallOf(w, op)) then Done else Failed(RateLimited)
  {
  }

  lemma StepBuckets(p: Policy, w: World, op: Op)
    ensures Step(p, w, op).0.buckets == Guardrails.Run(p.blockOwner, w.buckets, CallsOf(p, w, op))
  {
    if op.RemoveMembers? {
      RemovalBuckets(p, w, op.caller, op.group, op.removals);
    } else if Reaches(w, op) {
      LimitedBuckets(p, w, op);
      RunOfOne(p.blockOwner, w.buckets, CallOf(w, op));
    } else {
      UnlimitedBuckets(p, w, op);
    }
  }

  /** Over a run the limiter's buckets are those its calls leave. */
  lemma {:induction false} RunBuckets(p: Policy, w: World, ops: seq<Op>)
    ensures Run(p, w, ops).buckets == Guardrails.Run(p.blockOwner, w.buckets, RunCalls(p, w, ops))
    decreases |ops|
  {
    if ops != [] {
      StepBuckets(p, w, ops[0]);
      RunBuckets(p, Step(p, w, ops[0]).0, ops[1..]);
      Guardrails.RunConcat(p.blockOwner, w.buckets, CallsOf(p, w, ops[0]),
                           RunCalls(p, Step(p, w, ops[0]).0, ops[1..]));
    }
  }

  lemma {:induction false} RunCallsConcat(p: Policy, w: World, earlier: seq<Op>, later: seq<Op>)
    ensures RunCalls(p, w, earlier + later) == RunCalls(p, w, earlier) + RunCalls(p, Run(p, w, earlier), later)
    decreases |earlier|
  {
    if earlier == [] {
      assert earlier + later == later;
    } else {
      assert (earlier + later)[0] == earlier[0] && (earlier + later)[1..] == earlier[1..] + later;
      RunCallsConcat(p, Step(p, w, earlier[0]).0, earlier[1..], later);
    }
  }

  // ----- deletions -----

  /** A request by the actor that deletes a channel or a category. */
  predicate Deletes(p: Policy, w: World, op: Op, actor: UserId)
  {
    (op.DeleteGroup? || op.DeleteCategory?) && op.caller == actor && Step(p, w, op).1 == Done
  }

  function Deletions(p: Policy, w: World, ops: seq<Op>, actor: UserId): nat
    decreases |ops|
  {
    if ops == [] then 0
    else (if Deletes(p, w, ops[0], actor) then 1 else 0) + Deletions(p, Step(p, w, ops[0]).0, ops[1..], actor)
  }

  lemma AllowedOfOne(blockOwner: bool, m: Guardrails.Buckets, call: Guardrails.Call, key: Guardrails.Key)
    ensures Guardrails.AllowedOn(blockOwner, m, [call], key) ==
      if Guardrails.On(blockOwner, call, key) && Guardrails.Throttling(blockOwner, m, call).None? then 1 else 0
  {
    Guardrails.AllowedHead(blockOwner, m, [call], key);
    assert [call][1..] == [];
  }

  lemma {:induction false} RemovalsAreOther(p: Policy, w: World, caller: UserId, group: GroupId,
                                            removals: seq<(SentId, real)>)
    ensures forall i | 0 <= i < |RemovalCalls(p, w, caller, group, removals)| ::
      RemovalCalls(p, w, caller, group, removals)[i].key.action == Guardrails.KickMember
    decreases |removals|
  {
    if removals != [] && removals[0].0.Some? {
      var id, call := removals[0].0.value, CallFor(w, caller, Guardrails.KickMember, removals[0].1);
      if id == caller {
        RemovalsAreOther(p, Gone(w, group, caller), caller, group, removals[1..]);
      } else if May(w.db, caller, KICK_MEMBERS) && Passes(p, w, call) {
        RemovalsAreOther(p, Gone(Asked(p, w, call), group, id), caller, group, removals[1..]);
      }
    }
  }

  lemma {:induction false} OthersAllowNone(blockOwner: bool, m: Guardrails.Buckets, calls: seq<Guardrails.Call>,
                                           key: Guardrails.Key)
    requires forall i | 0 <= i < |calls| :: calls[i].key != key
    ensures Guardrails.AllowedOn(blockOwner, m, calls, key) == 0
    decreases |calls|
  {
    if calls != [] {
      Guardrails.AllowedHead(blockOwner, m, calls, key);
      OthersAllowNone(blockOwner, Guardrails.Step(blockOwner, m, calls[0]), calls[1..], key);
    }
  }

  /** A non-owner's deletion goes ahead exactly when the limiter allows a call on the one bucket that
      deletions of channels and of categories share. */
  lemma StepDeletions(p: Policy, w: World, op: Op, actor: UserId)
    requires !IsOwner(w.db, actor)
    ensures (if Deletes(p, w, op, actor) then 1 else 0) ==
      Guardrails.AllowedOn(p.blockOwner, w.buckets, CallsOf(p, w, op),
                           Guardrails.Key(actor, Guardrails.DeleteChannel))
  {
    var key := Guardrails.Key(actor, Guardrails.DeleteChannel);
    if op.RemoveMembers? {
      RemovalsAreOther(p, w, op.caller, op.group, op.removals);
      OthersAllowNone(p.blockOwner, w.buckets, CallsOf(p, w, op), key);
    } else if Reaches(w, op) {
      LimitedBuckets(p, w, op);
      AllowedOfOne(p.blockOwner, w.buckets, CallOf(w, op), key);
    }
  }

  lemma {:induction false} RunDeletions(p: Policy, w: World, ops: seq<Op>, actor: UserId)
    requires Possible(p, w, ops) && !IsOwner(Run(p, w, ops).db, actor)
    ensures Deletions(p, w, ops, actor) ==
      Guardrails.AllowedOn(p.blockOwner, w.buckets, RunCalls(p, w, ops),
                           Guardrails.Key(actor, Guardrails.DeleteChannel))
    decreases |ops|
  {
    var key := Guardrails.Key(actor, Guardrails.DeleteChannel);
    if ops != [] {
      var next := Step(p, w, ops[0]).0;
      if IsOwner(w.db, actor) { RunKeepsAccount(p, w, ops, actor); }
      StepDeletions(p, w, ops[0], actor);
      StepBuckets(p, w, ops[0]);
      RunDeletions(p, next, ops[1..], actor);
      Guardrails.AllowedConcat(p.blockOwner, w.buckets, CallsOf(p, w, ops[0]), RunCalls(p, next, ops[1..]), key);
    }
  }

  /** In any run of the server whose limiter starts empty and is asked at times that do not go back:
      somebody who is not the owner gets no more than three channels and categories deleted, plus
      one for every twenty seconds, among the requests from `start` on for `span` seconds, whatever
      else happens on the server. */
  lemma DeletionBound(p: Policy, w: World, earlier: seq<Op>, later: seq<Op>, actor: UserId,
                      start: real, span: real)
    requires w.buckets == map[] && Possible(p, w, earlier + later) && span >= 0.0
    requires !IsOwner(Run(p, w, earlier + later).db, actor)
    requires Guardrails.InOrder(RunCalls(p, w, earlier + later))
    requires forall i | 0 <= i < |RunCalls(p, w, earlier)| :: RunCalls(p, w, earlier)[i].now <= start
    requires
      var calls := RunCalls(p, Run(p, w, earlier), later);
      forall i | 0 <= i < |calls| :: start <= calls[i].now <= start + span
    ensures Deletions(p, Run(p, w, earlier), later, actor) as real <= 3.0 + span / 20.0
  {
    var mid := Run(p, w, earlier);
    var key := Guardrails.Key(actor, Guardrails.DeleteChannel);
    RunConcat(p, w, earlier, later);
    RunCallsConcat(p, w, earlier, later);
    RunBuckets(p, w, earlier);
    RunDeletions(p, mid, later, actor);
    Guardrails.BurstBound(p.blockOwner, RunCalls(p, w, earlier), RunCalls(p, mid, later), key, start, span);
  }
}
