/** Accounts and membership tiers: owner, member and guest, and who may end up in which group,
    over registration, login, the group operations and moderation, with the rate limiter they
    answer to. */
module Membership {
  import opened Directory
  import opened Options
  import Guardrails
  import Registration
  import Roles

  type GroupId = nat
  type CategoryId = nat

  /** The seeded channel every member is put into at login. */
  const GENERAL: GroupId := 1

  const MAX_LOCAL_ACCOUNTS := 3

  datatype Kind = Public | Private

  datatype Policy = Policy(requireInvite: bool, openDms: bool, blockOwner: bool)

  datatype World = World(
    db: Db,
    groups: map<GroupId, Kind>,
    categories: set<CategoryId>,
    members: set<(GroupId, UserId)>,
    bans: set<UserId>,
    regLog: map<Registration.Address, seq<real>>,
    buckets: Guardrails.Buckets)

  datatype Error =
    | PermissionDenied | InvalidArgument | NotFound | AlreadyExists | Unauthenticated
    | Unimplemented | FailedPrecondition | RateLimited

  datatype Outcome = Done | Failed(error: Error)

  /** Where a registration comes from. A connection may have no address. */
  datatype Origin = Loopback | Remote(ip: Registration.Address) | Unknown

  /** What becomes of the identity key sent, and of the insertion that checks names. */
  datatype Identity = Acceptable | Malformed | Taken

  /** An id as sent: None when it does not parse. */
  type SentId = Option<UserId>

  /** One request. The ids of new accounts and public channels are those the store draws; `now` is
      when the limiter is asked, for a list of removals each with its own time; `recent` are the
      channel names listed to the caller. `verified` and the fields of `Register` after the origin
      are the verdicts of credential checks and input validation. */
  datatype Op =
    | Register(id: UserId, origin: Origin, now: real, credentials: bool, hasInvite: bool,
               identity: Identity, nameTaken: bool)
    | Login(user: UserId, verified: bool)
    | AddMembers(caller: UserId, group: GroupId, ids: seq<SentId>)
    | RemoveMembers(caller: UserId, group: GroupId, removals: seq<(SentId, real)>)
    | CreatePublic(caller: UserId, id: GroupId, name: string, recent: seq<string>, now: real)
    | CreatePrivate(caller: UserId, id: GroupId, ids: seq<SentId>)
    | DeleteGroup(caller: UserId, group: GroupId, now: real)
    | DeleteCategory(caller: UserId, category: CategoryId, now: real)
    | Kick(caller: UserId, group: GroupId, target: UserId, now: real)
    | Ban(caller: UserId, target: UserId, now: real)
    | Unban(caller: UserId, target: UserId)
    | FirstUse(user: UserId, group: GroupId)
    | RoleChange(op: Roles.Op)

  // ----- the rate limiter, as the handlers ask it -----

  /** The call a handler makes; only the creation of a channel passes a name. */
  function CallFor(w: World, caller: UserId, action: Guardrails.Action, now: real): Guardrails.Call
  {
    Guardrails.Call(Guardrails.Key(caller, action), None, [], IsOwner(w.db, caller), now)
  }

  function CreationCall(w: World, caller: UserId, name: string, recent: seq<string>, now: real): Guardrails.Call
  {
    CallFor(w, caller, Guardrails.CreateChannel, now).(name := Some(name), recent := recent)
  }

  function Asked(p: Policy, w: World, call: Guardrails.Call): World
  {
    w.(buckets := Guardrails.Step(p.blockOwner, w.buckets, call))
  }

  /** Whether the limiter lets the call through; that a name is flagged stops nothing. */
  predicate Passes(p: Policy, w: World, call: Guardrails.Call)
  {
    Guardrails.Throttling(p.blockOwner, w.buckets, call).None?
  }

  /** It is the limiter's own decision that counts. */
  lemma PassesIffAllowed(p: Policy, w: World, call: Guardrails.Call)
    ensures Passes(p, w, call) <==> Guardrails.Decide(p.blockOwner, w.buckets, call).Allowed()
  {
    Guardrails.AllowedUnlessThrottled(p.blockOwner, w.buckets, call);
  }

  // ----- the operations -----

  /** Whether the rate limit refuses the attempt: only addresses other than loopback are limited. */
  predicate TooMany(w: World, op: Op)
    requires op.Register?
  {
    op.origin.Remote? &&
    |Registration.Pruned(Registration.Entries(w.regLog, op.origin.ip), op.now)| >= Registration.LIMIT
  }

  function Logged(w: World, op: Op): World
    requires op.Register?
  {
    if op.origin.Remote? then w.(regLog := Registration.Next(w.regLog, Registration.Attempt(op.origin.ip, op.now)))
    else w
  }

  function Registered(p: Policy, was: World, op: Op): (World, Outcome)
    requires op.Register?
  {
    var w := Logged(was, op);
    var first := |w.db.users| == 0 && op.origin.Loopback?;
    var member := !p.requireInvite || first || op.origin.Loopback? || op.hasInvite;
    if TooMany(was, op) then (w, Failed(RateLimited))
    else if !op.credentials then (w, Failed(InvalidArgument))
    else if op.origin.Loopback? && p.requireInvite && |w.db.users| >= MAX_LOCAL_ACCOUNTS then
      (w, Failed(InvalidArgument))
    else if !member && !p.openDms then (w, Failed(PermissionDenied))
    else if op.identity.Malformed? then (w, Failed(InvalidArgument))
    else if op.identity.Taken? || op.nameTaken then (w, Failed(AlreadyExists))
    else (w.(db := w.db.(users := w.db.users[op.id := Account(first, !member)])), Done)
  }

  /** The session part of a login: members are put into the default channel. */
  function LoggedIn(w: World, user: UserId): (World, Outcome)
  {
    if user !in w.db.users then (w, Failed(Unauthenticated))
    else if user in w.bans then (w, Failed(PermissionDenied))
    else if IsGuest(w.db, user) then (w, Done)
    else (w.(members := w.members + {(GENERAL, user)}), Done)
  }

  /** Adding stops at the first malformed id, guest or banned account; those before it stay added. */
  function Added(w: World, group: GroupId, ids: seq<SentId>): (World, Outcome)
    decreases |ids|
  {
    if ids == [] then (w, Done)
    else if ids[0].None? then (w, Failed(InvalidArgument))
    else if IsGuest(w.db, ids[0].value) then (w, Failed(PermissionDenied))
    else if ids[0].value in w.bans then (w, Failed(FailedPrecondition))
    else Added(w.(members := w.members + {(group, ids[0].value)}), group, ids[1..])
  }

  /** The members listed at the creation of a private group, up to the first malformed id. */
  function Enlisted(w: World, group: GroupId, ids: seq<SentId>): (World, Outcome)
    decreases |ids|
  {
    if ids == [] then (w, Done)
    else if ids[0].None? then (w, Failed(InvalidArgument))
    else Enlisted(w.(members := w.members + {(group, ids[0].value)}), group, ids[1..])
  }

  function Gone(w: World, group: GroupId, user: UserId): World { w.(members := w.members - {(group, user)}) }

  /** Removing others takes KICK_MEMBERS and a token for each; it stops at the first refusal. */
  function Removed(p: Policy, w: World, caller: UserId, group: GroupId, removals: seq<(SentId, real)>): (World, Outcome)
    decreases |removals|
  {
    if removals == [] then (w, Done)
    else
      var (id, now) := removals[0];
      var call := CallFor(w, caller, Guardrails.KickMember, now);
      if id.None? then (w, Failed(InvalidArgument))
      else if id.value == caller then Removed(p, Gone(w, group, caller), caller, group, removals[1..])
      else if !May(w.db, caller, KICK_MEMBERS) then (w, Failed(PermissionDenied))
      else if !Passes(p, w, call) then (Asked(p, w, call), Failed(RateLimited))
      else Removed(p, Gone(Asked(p, w, call), group, id.value), caller, group, removals[1..])
  }

  /** Membership on first use of a public channel; private groups are never joined this way. */
  function Participates(w: World, user: UserId, group: GroupId): (World, Outcome)
  {
    if (group, user) in w.members then (w, Done)
    else if group !in w.groups then (w, Failed(NotFound))
    else if w.groups[group] != Public then (w, Failed(PermissionDenied))
    else if IsGuest(w.db, user) || user in w.bans then (w, Failed(PermissionDenied))
    else (w.(members := w.members + {(group, user)}), Done)
  }

  function CreatedPublic(p: Policy, w: World, op: Op): (World, Outcome)
    requires op.CreatePublic?
  {
    var call := CreationCall(w, op.caller, op.name, op.recent, op.now);
    var asked := Asked(p, w, call);
    if op.name == "" then (w, Failed(InvalidArgument))
    else if !May(w.db, op.caller, MANAGE_CHANNELS) then (w, Failed(PermissionDenied))
    else if !Passes(p, w, call) then (asked, Failed(RateLimited))
    else (asked.(groups := w.groups[op.id := Public], members := w.members + {(op.id, op.caller)}), Done)
  }

  function CreatedPrivate(w: World, op: Op): (World, Outcome)
    requires op.CreatePrivate?
  {
    if op.id in w.groups then (w, Failed(AlreadyExists))
    else
      Enlisted(w.(groups := w.groups[op.id := Private], members := w.members + {(op.id, op.caller)}), op.id, op.ids)
  }

  function GroupDeleted(p: Policy, w: World, op: Op): (World, Outcome)
    requires op.DeleteGroup?
  {
    var call := CallFor(w, op.caller, Guardrails.DeleteChannel, op.now);
    if op.group !in w.groups then (w, Failed(NotFound))
    else if w.groups[op.group] != Public then (w, Failed(FailedPrecondition))
    else if !May(w.db, op.caller, MANAGE_CHANNELS) then (w, Failed(PermissionDenied))
    else if !Passes(p, w, call) then (Asked(p, w, call), Failed(RateLimited))
    else (Asked(p, w, call).(groups := w.groups - {op.group},
                             members := (set m | m in w.members && m.0 != op.group)), Done)
  }

  /** A category is deleted, if there is one, whatever channels it held; these stay. */
  function CategoryDeleted(p: Policy, w: World, op: Op): (World, Outcome)
    requires op.DeleteCategory?
  {
    var call := CallFor(w, op.caller, Guardrails.DeleteChannel, op.now);
    if !May(w.db, op.caller, MANAGE_CHANNELS) then (w, Failed(PermissionDenied))
    else if !Passes(p, w, call) then (Asked(p, w, call), Failed(RateLimited))
    else (Asked(p, w, call).(categories := w.categories - {op.category}), Done)
  }

  function Kicked(p: Policy, w: World, op: Op): (World, Outcome)
    requires op.Kick?
  {
    var call := CallFor(w, op.caller, Guardrails.KickMember, op.now);
    if op.target == op.caller then (Gone(w, op.group, op.target), Done)
    else if !May(w.db, op.caller, KICK_MEMBERS) then (w, Failed(PermissionDenied))
    else if !CanActOn(w.db, op.caller, op.target) then (w, Failed(PermissionDenied))
    else if !Passes(p, w, call) then (Asked(p, w, call), Failed(RateLimited))
    else (Gone(Asked(p, w, call), op.group, op.target), Done)
  }

  function Banned(p: Policy, w: World, op: Op): (World, Outcome)
    requires op.Ban?
  {
    var call := CallFor(w, op.caller, Guardrails.BanMember, op.now);
    if !May(w.db, op.caller, BAN_MEMBERS) then (w, Failed(PermissionDenied))
    else if IsOwner(w.db, op.target) then (w, Failed(FailedPrecondition))
    else if !CanActOn(w.db, op.caller, op.target) then (w, Failed(PermissionDenied))
    else if !Passes(p, w, call) then (Asked(p, w, call), Failed(RateLimited))
    else (Asked(p, w, call).(members := (set m | m in w.members && m.1 != op.target),
                             bans := w.bans + {op.target}), Done)
  }

  function Step(p: Policy, w: World, op: Op): (World, Outcome)
  {
    match op
    case Register(_, _, _, _, _, _, _) => Registered(p, w, op)
    case Login(user, verified) =>
      if verified then LoggedIn(w, user) else (w, Failed(Unauthenticated))
    case AddMembers(caller, group, ids) =>
      if IsGuest(w.db, caller) then (w, Failed(PermissionDenied))
      else if group !in w.groups then (w, Failed(NotFound))
      else if w.groups[group] != Public then (w, Failed(Unimplemented))
      else Added(w, group, ids)
    case RemoveMembers(caller, group, removals) => Removed(p, w, caller, group, removals)
    case CreatePublic(_, _, _, _, _) => CreatedPublic(p, w, op)
    case CreatePrivate(_, _, _) => CreatedPrivate(w, op)
    case DeleteGroup(_, _, _) => GroupDeleted(p, w, op)
    case DeleteCategory(_, _, _) => CategoryDeleted(p, w, op)
    case Kick(_, _, _, _) => Kicked(p, w, op)
    case Ban(_, _, _) => Banned(p, w, op)
    case Unban(caller, target) =>
      if !May(w.db, caller, BAN_MEMBERS) then (w, Failed(PermissionDenied))
      else (w.(bans := w.bans - {target}), Done)
    case FirstUse(user, group) => Participates(w, user, group)
    case RoleChange(change) => (w.(db := Roles.Step(w.db, change)), Done)
  }

  /** The ids a store draws have never been used. */
  predicate Enabled(w: World, op: Op)
  {
    && (op.Register? ==>
          op.id !in w.db.users && op.id !in w.bans && forall m | m in w.members :: m.1 != op.id)
    && (op.CreatePublic? ==> op.id !in w.groups && forall m | m in w.members :: m.0 != op.id)
  }

  predicate Possible(p: Policy, w: World, ops: seq<Op>)
    decreases |ops|
  {
    ops == [] || (Enabled(w, ops[0]) && Possible(p, Step(p, w, ops[0]).0, ops[1..]))
  }

  function Run(p: Policy, w: World, ops: seq<Op>): World
    decreases |ops|
  {
    if ops == [] then w else Run(p, Step(p, w, ops[0]).0, ops[1..])
  }

  // ----- tier safety -----

  ghost predicate Safe(w: World)
  {
    && (forall u, v :: IsOwner(w.db, u) && IsOwner(w.db, v) ==> u == v)
    && (forall u :: IsOwner(w.db, u) ==> !IsGuest(w.db, u) && u !in w.bans)
    && (forall m | m in w.members && IsGuest(w.db, m.1) ::
          m.0 in w.groups && w.groups[m.0] == Private)
  }

  lemma {:induction false} AddedStaysSafe(w: World, group: GroupId, ids: seq<SentId>)
    requires Safe(w)
    ensures Safe(Added(w, group, ids).0)
    ensures Added(w, group, ids).0.(members := w.members) == w
    decreases |ids|
  {
    if ids != [] && ids[0].Some? && !IsGuest(w.db, ids[0].value) && ids[0].value !in w.bans {
      AddedStaysSafe(w.(members := w.members + {(group, ids[0].value)}), group, ids[1..]);
    }
  }

  lemma {:induction false} EnlistedStaysSafe(w: World, group: GroupId, ids: seq<SentId>)
    requires Safe(w) && group in w.groups && w.groups[group] == Private
    ensures Safe(Enlisted(w, group, ids).0)
    decreases |ids|
  {
    if ids != [] && ids[0].Some? {
      EnlistedStaysSafe(w.(members := w.members + {(group, ids[0].value)}), group, ids[1..]);
    }
  }

  lemma {:induction false} EnlistedKeeps(w: World, group: GroupId, ids: seq<SentId>)
    ensures Enlisted(w, group, ids).0.(members := w.members) == w
    decreases |ids|
  {
    if ids != [] && ids[0].Some? {
      EnlistedKeeps(w.(members := w.members + {(group, ids[0].value)}), group, ids[1..]);
    }
  }

  lemma {:induction false} RemovedOnlyShrinks(p: Policy, w: World, caller: UserId, group: GroupId,
                                              removals: seq<(SentId, real)>)
    ensures
      var next := Removed(p, w, caller, group, removals).0;
      next.members <= w.members && next.(members := w.members, buckets := w.buckets) == w
    decreases |removals|
  {
    if removals != [] && removals[0].0.Some? {
      var id, call := removals[0].0.value, CallFor(w, caller, Guardrails.KickMember, removals[0].1);
      if id == caller {
        RemovedOnlyShrinks(p, Gone(w, group, caller), caller, group, removals[1..]);
      } else {
        RemovedOnlyShrinks(p, Gone(Asked(p, w, call), group, id), caller, group, removals[1..]);
      }
    }
  }

  /** Safety is a matter of accounts, bans, groups and members only, and outlives losing members. */
  lemma FewerMembersSafe(w: World, next: World)
    requires Safe(w) && next.db.users == w.db.users && next.bans == w.bans
    requires next.groups == w.groups && next.members <= w.members
    ensures Safe(next)
  {
    assert forall u :: IsOwner(next.db, u) == IsOwner(w.db, u) && IsGuest(next.db, u) == IsGuest(w.db, u);
  }

  /** A new account is safe if it is an owner only as the very first, and then no guest. */
  lemma NewAccountSafe(w: World, id: UserId, account: Account)
    requires Safe(w) && id !in w.db.users && id !in w.bans && forall m | m in w.members :: m.1 != id
    requires account.isOwner ==> w.db.users == map[] && !account.isGuest
    ensures Safe(w.(db := w.db.(users := w.db.users[id := account])))
  {
    var next := w.(db := w.db.(users := w.db.users[id := account]));
    assert forall u | u != id :: IsOwner(next.db, u) == IsOwner(w.db, u) && IsGuest(next.db, u) == IsGuest(w.db, u);
  }

  lemma RegisteredStaysSafe(p: Policy, w: World, op: Op)
    requires Safe(w) && Enabled(w, op) && op.Register?
    ensures Safe(Registered(p, w, op).0)
  {
    if |w.db.users| == 0 { assert w.db.users.Keys == {}; }
    FewerMembersSafe(w, Logged(w, op));
    var first := |w.db.users| == 0 && op.origin.Loopback?;
    var member := !p.requireInvite || first || op.origin.Loopback? || op.hasInvite;
    NewAccountSafe(Logged(w, op), op.id, Account(first, !member));
  }

  lemma RolesKeepAccounts(db: Db, op: Roles.Op)
    ensures Roles.Step(db, op).users == db.users
  {
  }

  /** Every operation but registration leaves the accounts alone. */
  lemma AccountsUntouched(p: Policy, w: World, op: Op)
    requires !op.Register?
    ensures Step(p, w, op).0.db.users == w.db.users
  {
    if op.AddMembers? {
      AddedKeepsAccounts(w, op.group, op.ids);
    } else if op.RemoveMembers? {
      RemovedOnlyShrinks(p, w, op.caller, op.group, op.removals);
    } else if op.RoleChange? {
      RolesKeepAccounts(w.db, op.op);
    } else if op.CreatePrivate? && op.id !in w.groups {
      EnlistedKeeps(w.(groups := w.groups[op.id := Private], members := w.members + {(op.id, op.caller)}),
                    op.id, op.ids);
    }
  }

  /** A guest has no permission at all. */
  lemma GuestMayNothing(db: Db, u: UserId, need: Bit)
    requires IsGuest(db, u) && !IsOwner(db, u)
    ensures !May(db, u, need)
  {
    assert Effective(db, u) == {};
  }

  lemma CreatedPublicStaysSafe(p: Policy, w: World, op: Op)
    requires Safe(w) && Enabled(w, op) && op.CreatePublic?
    ensures Safe(CreatedPublic(p, w, op).0)
  {
    if IsGuest(w.db, op.caller) { GuestMayNothing(w.db, op.caller, MANAGE_CHANNELS); }
  }

  lemma CreatedPrivateStaysSafe(w: World, op: Op)
    requires Safe(w) && op.CreatePrivate?
    ensures Safe(CreatedPrivate(w, op).0)
  {
    if op.id !in w.groups {
      EnlistedStaysSafe(w.(groups := w.groups[op.id := Private], members := w.members + {(op.id, op.caller)}),
                        op.id, op.ids);
    }
  }

  lemma BannedStaysSafe(p: Policy, w: World, op: Op)
    requires Safe(w) && op.Ban?
    ensures Safe(Banned(p, w, op).0)
  {
  }

  lemma GroupDeletedStaysSafe(p: Policy, w: World, op: Op)
    requires Safe(w) && op.DeleteGroup?
    ensures Safe(GroupDeleted(p, w, op).0)
  {
  }

  lemma RemovedStaysSafe(p: Policy, w: World, op: Op)
    requires Safe(w) && op.RemoveMembers?
    ensures Safe(Step(p, w, op).0)
  {
    RemovedOnlyShrinks(p, w, op.caller, op.group, op.removals);
    FewerMembersSafe(w, Step(p, w, op).0);
  }

  lemma RolesStaySafe(p: Policy, w: World, op: Op)
    requires Safe(w) && op.RoleChange?
    ensures Safe(Step(p, w, op).0)
  {
    RolesKeepAccounts(w.db, op.op);
    FewerMembersSafe(w, Step(p, w, op).0);
  }

  lemma KickedStaysSafe(p: Policy, w: World, op: Op)
    requires Safe(w) && op.Kick?
    ensures Safe(Kicked(p, w, op).0)
  {
    FewerMembersSafe(w, Kicked(p, w, op).0);
  }

  lemma CategoryDeletedStaysSafe(p: Policy, w: World, op: Op)
    requires Safe(w) && op.DeleteCategory?
    ensures Safe(CategoryDeleted(p, w, op).0)
  {
    FewerMembersSafe(w, CategoryDeleted(p, w, op).0);
  }

  lemma StepStaysSafe(p: Policy, w: World, op: Op)
    requires Safe(w) && Enabled(w, op)
    ensures Safe(Step(p, w, op).0)
  {
    match op
    case Register(_, _, _, _, _, _, _) => RegisteredStaysSafe(p, w, op);
    case AddMembers(_, group, ids) => AddedStaysSafe(w, group, ids);
    case CreatePublic(_, _, _, _, _) => CreatedPublicStaysSafe(p, w, op);
    case CreatePrivate(_, _, _) => CreatedPrivateStaysSafe(w, op);
    case Ban(_, _, _) => BannedStaysSafe(p, w, op);
    case RemoveMembers(_, _, _) => RemovedStaysSafe(p, w, op);
    case DeleteGroup(_, _, _) => GroupDeletedStaysSafe(p, w, op);
    case DeleteCategory(_, _, _) => CategoryDeletedStaysSafe(p, w, op);
    case Kick(_, _, _, _) => KickedStaysSafe(p, w, op);
    case RoleChange(_) => RolesStaySafe(p, w, op);
    case _ =>
  }

  lemma {:induction false} RunStaysSafe(p: Policy, w: World, ops: seq<Op>)
    requires Safe(w) && Possible(p, w, ops)
    ensures Safe(Run(p, w, ops))
    decreases |ops|
  {
    if ops != [] {
      StepStaysSafe(p, w, ops[0]);
      RunStaysSafe(p, Step(p, w, ops[0]).0, ops[1..]);
    }
  }

  lemma StepKeepsAccount(p: Policy, w: World, op: Op, u: UserId)
    requires Enabled(w, op) && u in w.db.users
    ensures u in Step(p, w, op).0.db.users && Step(p, w, op).0.db.users[u] == w.db.users[u]
  {
    if !op.Register? { AccountsUntouched(p, w, op); }
  }

  lemma {:induction false} RunKeepsAccount(p: Policy, w: World, ops: seq<Op>, u: UserId)
    requires Possible(p, w, ops) && u in w.db.users
    ensures u in Run(p, w, ops).db.users && Run(p, w, ops).db.users[u] == w.db.users[u]
    decreases |ops|
  {
    if ops != [] {
      StepKeepsAccount(p, w, ops[0], u);
      RunKeepsAccount(p, Step(p, w, ops[0]).0, ops[1..], u);
    }
  }

  /** A server with no accounts yet: its roles, and its public channels with nobody in them. */
  predicate Unclaimed(w: World)
  {
    w.db.users == map[] && w.members == {} && w.bans == {}
  }

  /** In every run from an unclaimed server there is at most one owner, who is neither a guest nor
      banned; every guest has no permissions at all and is in private groups only. */
  lemma TierSafety(p: Policy, w: World, ops: seq<Op>, u: UserId, v: UserId)
    requires Unclaimed(w) && Possible(p, w, ops)
    ensures
      var end := Run(p, w, ops);
      && (IsOwner(end.db, u) && IsOwner(end.db, v) ==> u == v)
      && (IsOwner(end.db, u) ==> !IsGuest(end.db, u) && u !in end.bans)
      && (IsGuest(end.db, u) ==> Effective(end.db, u) == {} && forall b :: !May(end.db, u, b))
      && (IsGuest(end.db, u) ==> forall g | g in end.groups && end.groups[g] == Public ::
            (g, u) !in end.members)
  {
    RunStaysSafe(p, w, ops);
  }

  /** A tier is for life: no operation changes what kind of account somebody has. */
  lemma TierNeverChanges(p: Policy, w: World, earlier: seq<Op>, later: seq<Op>, u: UserId)
    requires Possible(p, w, earlier + later)
    requires u in Run(p, w, earlier).db.users
    ensures u in Run(p, w, earlier + later).db.users
    ensures Run(p, w, earlier + later).db.users[u] == Run(p, w, earlier).db.users[u]
  {
    RunConcat(p, w, earlier, later);
    RunKeepsAccount(p, Run(p, w, earlier), later, u);
  }

  lemma {:induction false} RunConcat(p: Policy, w: World, earlier: seq<Op>, later: seq<Op>)
    requires Possible(p, w, earlier + later)
    ensures Possible(p, w, earlier) && Possible(p, Run(p, w, earlier), later)
    ensures Run(p, w, earlier + later) == Run(p, Run(p, w, earlier), later)
    decreases |earlier|
  {
    if earlier == [] {
      assert earlier + later == later;
    } else {
      assert (earlier + later)[1..] == earlier[1..] + later;
      RunConcat(p, Step(p, w, earlier[0]).0, earlier[1..], later);
    }
  }

  /** Who becomes the owner: the first account of all, and only if it is made on the machine that
      hosts the server. */
  lemma OwnerIsFirstLocal(p: Policy, w: World, op: Op, u: UserId)
    requires Enabled(w, op)
    ensures IsOwner(Step(p, w, op).0.db, u) && !IsOwner(w.db, u) <==>
      && op.Register? && op.id == u && op.origin.Loopback? && w.db.users == map[]
      && op.credentials && op.identity.Acceptable? && !op.nameTaken
  {
    if op.Register? {
      if |w.db.users| == 0 { assert w.db.users.Keys == {}; }
    } else {
      AccountsUntouched(p, w, op);
    }
  }

  lemma {:induction false} AddedKeepsAccounts(w: World, group: GroupId, ids: seq<SentId>)
    ensures Added(w, group, ids).0.(members := w.members) == w
    decreases |ids|
  {
    if ids != [] && ids[0].Some? {
      AddedKeepsAccounts(w.(members := w.members + {(group, ids[0].value)}), group, ids[1..]);
    }
  }

  // ----- the service -----

  class MembershipService {
    const policy: Policy
    var w: World

    constructor (policy: Policy, w: World)
      ensures this.policy == policy && this.w == w
    {
      this.policy, this.w := policy, w;
    }

    /** Asks the limiter, which spends a token or not. */
    method Guard(call: Guardrails.Call) returns (ok: bool)
      modifies this
      ensures w == Asked(policy, old(w), call) && ok == Passes(policy, old(w), call)
    {
      ok := Guardrails.Throttling(policy.blockOwner, w.buckets, call).None?;
      w := w.(buckets := Guardrails.Step(policy.blockOwner, w.buckets, call));
    }

    method Register(op: Op) returns (outcome: Outcome)
      requires op.Register?
      modifies this
      ensures (w, outcome) == Step(policy, old(w), op)
    {
      if op.origin.Remote? {
        var attempt := Registration.Attempt(op.origin.ip, op.now);
        var recent := |Registration.Pruned(Registration.Entries(w.regLog, attempt.ip), attempt.now)|;
        w := w.(regLog := Registration.Next(w.regLog, attempt));
        if recent >= Registration.LIMIT { return Failed(RateLimited); }
      }
      if !op.credentials { return Failed(InvalidArgument); }
      var count := |w.db.users|;
      var isFirst := count == 0 && op.origin.Loopback?;
      if op.origin.Loopback? && policy.requireInvite && count >= MAX_LOCAL_ACCOUNTS {
        return Failed(InvalidArgument);
      }
      var isMember := !policy.requireInvite || isFirst || op.origin.Loopback? || op.hasInvite;
      if !isMember && !policy.openDms { return Failed(PermissionDenied); }
      if op.identity.Malformed? { return Failed(InvalidArgument); }
      if op.identity.Taken? || op.nameTaken { return Failed(AlreadyExists); }
      w := w.(db := w.db.(users := w.db.users[op.id := Account(isFirst, !isMember)]));
      outcome := Done;
    }

    /** The part of a login that concerns membership; the caller has verified the credentials. */
    method IssueSession(user: UserId) returns (outcome: Outcome)
      modifies this
      ensures (w, outcome) == Step(policy, old(w), Op.Login(user, true))
    {
      if user !in w.db.users { return Failed(Unauthenticated); }
      if user in w.bans { return Failed(PermissionDenied); }
      if !IsGuest(w.db, user) {
        w := w.(members := w.members + {(GENERAL, user)});
      }
      outcome := Done;
    }

    method CreatePublicGroup(caller: UserId, id: GroupId, name: string, recent: seq<string>, now: real)
      returns (outcome: Outcome)
      modifies this
      ensures (w, outcome) == Step(policy, old(w), Op.CreatePublic(caller, id, name, recent, now))
    {
      if name == "" { return Failed(InvalidArgument); }
      if !May(w.db, caller, MANAGE_CHANNELS) { return Failed(PermissionDenied); }
      var ok := Guard(CreationCall(w, caller, name, recent, now));
      if !ok { return Failed(RateLimited); }
      w := w.(groups := w.groups[id := Public]);
      w := w.(members := w.members + {(id, caller)});
      outcome := Done;
    }

    method DeleteGroup(caller: UserId, group: GroupId, now: real) returns (outcome: Outcome)
      modifies this
      ensures (w, outcome) == Step(policy, old(w), Op.DeleteGroup(caller, group, now))
    {
      if group !in w.groups { return Failed(NotFound); }
      if w.groups[group] != Public { return Failed(FailedPrecondition); }
      if !May(w.db, caller, MANAGE_CHANNELS) { return Failed(PermissionDenied); }
      var ok := Guard(CallFor(w, caller, Guardrails.DeleteChannel, now));
      if !ok { return Failed(RateLimited); }
      w := w.(members := set m | m in w.members && m.0 != group);
      w := w.(groups := w.groups - {group});
      outcome := Done;
    }

    method DeleteCategory(caller: UserId, category: CategoryId, now: real) returns (outcome: Outcome)
      modifies this
      ensures (w, outcome) == Step(policy, old(w), Op.DeleteCategory(caller, category, now))
    {
      if !May(w.db, caller, MANAGE_CHANNELS) { return Failed(PermissionDenied); }
      var ok := Guard(CallFor(w, caller, Guardrails.DeleteChannel, now));
      if !ok { return Failed(RateLimited); }
      w := w.(categories := w.categories - {category});
      outcome := Done;
    }

    method KickMember(caller: UserId, group: GroupId, target: UserId, now: real) returns (outcome: Outcome)
      modifies this
      ensures (w, outcome) == Step(policy, old(w), Op.Kick(caller, group, target, now))
    {
      if target != caller {
        if !May(w.db, caller, KICK_MEMBERS) { return Failed(PermissionDenied); }
        if !CanActOn(w.db, caller, target) { return Failed(PermissionDenied); }
        var ok := Guard(CallFor(w, caller, Guardrails.KickMember, now));
        if !ok { return Failed(RateLimited); }
      }
      w := w.(members := w.members - {(group, target)});
      outcome := Done;
    }

    method AddMembers(caller: UserId, group: GroupId, ids: seq<SentId>) returns (outcome: Outcome)
      modifies this
      ensures (w, outcome) == Step(policy, old(w), Op.AddMembers(caller, group, ids))
    {
      if IsGuest(w.db, caller) { return Failed(PermissionDenied); }
      if group !in w.groups { return Failed(NotFound); }
      if w.groups[group] != Public { return Failed(Unimplemented); }
      for i := 0 to |ids|
        invariant Added(old(w), group, ids) == Added(w, group, ids[i..])
      {
        if ids[i].None? { return Failed(InvalidArgument); }
        if IsGuest(w.db, ids[i].value) { return Failed(PermissionDenied); }
        if ids[i].value in w.bans { return Failed(FailedPrecondition); }
        assert ids[i..][1..] == ids[i + 1..];
        w := w.(members := w.members + {(group, ids[i].value)});
      }
      outcome := Done;
    }

    method RemoveMembers(caller: UserId, group: GroupId, removals: seq<(SentId, real)>)
      returns (outcome: Outcome)
      modifies this
      ensures (w, outcome) == Step(policy, old(w), Op.RemoveMembers(caller, group, removals))
    {
      for i := 0 to |removals|
        invariant Removed(policy, old(w), caller, group, removals) == Removed(policy, w, caller, group, removals[i..])
      {
        var (id, now) := removals[i];
        assert removals[i..][0] == removals[i] && removals[i..][1..] == removals[i + 1..];
        if id.None? { return Failed(InvalidArgument); }
        if id.value != caller {
          if !May(w.db, caller, KICK_MEMBERS) { return Failed(PermissionDenied); }
          var ok := Guard(CallFor(w, caller, Guardrails.KickMember, now));
          if !ok { return Failed(RateLimited); }
        }
        w := w.(members := w.members - {(group, id.value)});
      }
      outcome := Done;
    }

    method CreatePrivateGroup(caller: UserId, id: GroupId, ids: seq<SentId>) returns (outcome: Outcome)
      modifies this
      ensures (w, outcome) == Step(policy, old(w), Op.CreatePrivate(caller, id, ids))
    {
      if id in w.groups { return Failed(AlreadyExists); }
      w := w.(groups := w.groups[id := Private], members := w.members + {(id, caller)});
      ghost var created := w;
      for i := 0 to |ids|
        invariant Enlisted(created, id, ids) == Enlisted(w, id, ids[i..])
      {
        assert ids[i..][1..] == ids[i + 1..];
        if ids[i].None? { return Failed(InvalidArgument); }
        w := w.(members := w.members + {(id, ids[i].value)});
      }
      outcome := Done;
    }

    method BanMember(caller: UserId, target: UserId, now: real) returns (outcome: Outcome)
      modifies this
      ensures (w, outcome) == Step(policy, old(w), Op.Ban(caller, target, now))
    {
      if !May(w.db, caller, BAN_MEMBERS) { return Failed(PermissionDenied); }
      if IsOwner(w.db, target) { return Failed(FailedPrecondition); }
      if !CanActOn(w.db, caller, target) { return Failed(PermissionDenied); }
      var ok := Guard(CallFor(w, caller, Guardrails.BanMember, now));
      if !ok { return Failed(RateLimited); }
      LeaveAll(target);
      w := w.(bans := w.bans + {target});
      outcome := Done;
    }

    /** Takes the user out of every group, one membership at a time. */
    method LeaveAll(target: UserId)
      modifies this
      ensures w == old(w).(members := (set m | m in old(w).members && m.1 != target))
    {
      var left := set m | m in w.members && m.1 == target;
      while left != {}
        invariant left <= w.members && w == old(w).(members := w.members)
        invariant w.members - left == set m | m in old(w).members && m.1 != target
        invariant forall m | m in left :: m.1 == target
        decreases left
      {
        var m :| m in left;
        left := left - {m};
        w := w.(members := w.members - {m});
      }
      assert w.members - left == w.members;
    }

    method EnsureParticipant(user: UserId, group: GroupId) returns (outcome: Outcome)
      modifies this
      ensures (w, outcome) == Step(policy, old(w), Op.FirstUse(user, group))
    {
      if (group, user) in w.members { return Done; }
      if group !in w.groups { return Failed(NotFound); }
      if w.groups[group] != Public { return Failed(PermissionDenied); }
      if IsGuest(w.db, user) || user in w.bans { return Failed(PermissionDenied); }
      w := w.(members := w.members + {(group, user)});
      outcome := Done;
    }
  }
}
