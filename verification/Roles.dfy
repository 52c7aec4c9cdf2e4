/** Role management: one operation per request, over the stored roles and assignments, and what
    no run of such operations by non-owners, or by non-administrators, can bring about. */
module Roles {
  import opened Directory

  datatype Error = PermissionDenied | InvalidArgument | NotFound

  datatype Outcome = Done | Failed(error: Error)

  /** One request. `Create` carries the id the store will draw for the new role; names are given
      as trimmed. */
  datatype Op =
    | Create(caller: UserId, name: string, permissions: Permissions, id: RoleId)
    | Update(caller: UserId, role: RoleId, permissions: Permissions)
    | Delete(caller: UserId, role: RoleId)
    | Reorder(caller: UserId, ids: seq<RoleId>)
    | Assign(caller: UserId, user: UserId, role: RoleId)
    | Unassign(caller: UserId, user: UserId, role: RoleId)

  /** Granting ADMINISTRATOR takes an administrator. */
  predicate Escalates(db: Db, caller: UserId, granted: Permissions)
  {
    IsAdmin(granted) && !IsAdmin(Effective(db, caller))
  }

  // ----- what each operation answers, and what it does when it goes ahead -----

  function NewPosition(n: nat, i: nat): int { n - i }

  /** The first objection to a proposed order, looking at the ids from the `i`-th on. */
  function ReorderObjection(db: Db, rank: int, ids: seq<RoleId>, i: nat): Outcome
    decreases |ids| - i
  {
    if i >= |ids| then Done
    else if ids[i] !in db.roles then Failed(NotFound)
    else if db.roles[ids[i]].isDefault then Failed(InvalidArgument)
    else if rank <= db.roles[ids[i]].position || rank <= NewPosition(|ids|, i) then
      Failed(PermissionDenied)
    else ReorderObjection(db, rank, ids, i + 1)
  }

  function Answer(db: Db, op: Op): Outcome
  {
    if !May(db, op.caller, MANAGE_ROLES) then Failed(PermissionDenied)
    else match op
      case Create(caller, name, permissions, _) =>
        if Escalates(db, caller, permissions) then Failed(PermissionDenied)
        else if name == "" then Failed(InvalidArgument)
        else Done
      case Update(caller, role, permissions) =>
        if Escalates(db, caller, permissions) then Failed(PermissionDenied)
        else if role !in db.roles then Failed(NotFound)
        else if !RoleBelow(db, caller, db.roles[role].position) then Failed(PermissionDenied)
        else Done
      case Delete(caller, role) =>
        if role !in db.roles then Failed(NotFound)
        else if db.roles[role].isDefault then Failed(InvalidArgument)
        else if !RoleBelow(db, caller, db.roles[role].position) then Failed(PermissionDenied)
        else Done
      case Reorder(caller, ids) => ReorderObjection(db, Rank(db, caller), ids, 0)
      case Assign(caller, user, role) =>
        if role !in db.roles then Failed(NotFound)
        else if Escalates(db, caller, db.roles[role].permissions) then Failed(PermissionDenied)
        else if !RoleBelow(db, caller, db.roles[role].position) then Failed(PermissionDenied)
        else if !CanActOn(db, caller, user) then Failed(PermissionDenied)
        else Done
      case Unassign(caller, user, role) =>
        if role !in db.roles then Failed(NotFound)
        else if !RoleBelow(db, caller, db.roles[role].position) then Failed(PermissionDenied)
        else if !CanActOn(db, caller, user) then Failed(PermissionDenied)
        else Done
  }

  /** The roles once the first `i` ids have been given their positions, top first; the default
      role is passed over. */
  function Repositioned(roles: map<RoleId, Role>, ids: seq<RoleId>, i: nat): (r: map<RoleId, Role>)
    requires i <= |ids|
    ensures r.Keys == roles.Keys
  {
    if i == 0 then roles
    else
      var before, id := Repositioned(roles, ids, i - 1), ids[i - 1];
      if id in before && !before[id].isDefault then
        before[id := before[id].(position := NewPosition(|ids|, i - 1))]
      else before
  }

  function TopPosition(db: Db): int { HighestOr(Positions(db, db.roles.Keys), 0) }

  function Effect(db: Db, op: Op): Db
  {
    match op
    case Create(_, _, permissions, id) =>
      db.(roles := db.roles[id := Role(TopPosition(db) + 1, permissions, false)])
    case Update(_, role, permissions) =>
      if role in db.roles then
        db.(roles := db.roles[role := db.roles[role].(permissions := permissions)])
      else db
    case Delete(_, role) =>
      Db(db.users,
         if role in db.roles && !db.roles[role].isDefault then db.roles - {role} else db.roles,
         set h | h in db.held && h.1 != role)
    case Reorder(_, ids) => db.(roles := Repositioned(db.roles, ids, |ids|))
    case Assign(_, user, role) => db.(held := db.held + {(user, role)})
    case Unassign(_, user, role) => db.(held := db.held - {(user, role)})
  }

  function Step(db: Db, op: Op): Db { if Answer(db, op) == Done then Effect(db, op) else db }

  /** A new role's id has never been used. */
  predicate Enabled(db: Db, op: Op)
  {
    op.Create? ==> op.id !in db.roles && forall h | h in db.held :: h.1 != op.id
  }

  predicate Possible(db: Db, ops: seq<Op>)
    decreases |ops|
  {
    ops == [] || (Enabled(db, ops[0]) && Possible(Step(db, ops[0]), ops[1..]))
  }

  function Run(db: Db, ops: seq<Op>): Db
    decreases |ops|
  {
    if ops == [] then db else Run(Step(db, ops[0]), ops[1..])
  }

  // ----- the service -----

  class RoleService {
    var db: Db

    constructor (db: Db)
      ensures this.db == db
    {
      this.db := db;
    }

    method CreateRole(caller: UserId, name: string, permissions: Permissions, id: RoleId)
      returns (outcome: Outcome)
      modifies this
      ensures outcome == Answer(old(db), Create(caller, name, permissions, id))
      ensures db == Step(old(db), Create(caller, name, permissions, id))
    {
      if !May(db, caller, MANAGE_ROLES) { return Failed(PermissionDenied); }
      if Escalates(db, caller, permissions) { return Failed(PermissionDenied); }
      if name == "" { return Failed(InvalidArgument); }
      db := db.(roles := db.roles[id := Role(TopPosition(db) + 1, permissions, false)]);
      outcome := Done;
    }

    method UpdateRole(caller: UserId, role: RoleId, permissions: Permissions) returns (outcome: Outcome)
      modifies this
      ensures outcome == Answer(old(db), Update(caller, role, permissions))
      ensures db == Step(old(db), Update(caller, role, permissions))
    {
      if !May(db, caller, MANAGE_ROLES) { return Failed(PermissionDenied); }
      if Escalates(db, caller, permissions) { return Failed(PermissionDenied); }
      if role !in db.roles { return Failed(NotFound); }
      if !RoleBelow(db, caller, db.roles[role].position) { return Failed(PermissionDenied); }
      db := db.(roles := db.roles[role := db.roles[role].(permissions := permissions)]);
      outcome := Done;
    }

    method DeleteRole(caller: UserId, role: RoleId) returns (outcome: Outcome)
      modifies this
      ensures outcome == Answer(old(db), Delete(caller, role))
      ensures db == Step(old(db), Delete(caller, role))
    {
      if !May(db, caller, MANAGE_ROLES) { return Failed(PermissionDenied); }
      if role !in db.roles { return Failed(NotFound); }
      if db.roles[role].isDefault { return Failed(InvalidArgument); }
      if !RoleBelow(db, caller, db.roles[role].position) { return Failed(PermissionDenied); }
      db := Db(db.users, db.roles - {role}, set h | h in db.held && h.1 != role);
      outcome := Done;
    }

    method ReorderRoles(caller: UserId, ids: seq<RoleId>) returns (outcome: Outcome)
      modifies this
      ensures outcome == Answer(old(db), Reorder(caller, ids))
      ensures db == Step(old(db), Reorder(caller, ids))
    {
      if !May(db, caller, MANAGE_ROLES) { return Failed(PermissionDenied); }
      var rank := Rank(db, caller);
      for i := 0 to |ids|
        invariant ReorderObjection(db, rank, ids, 0) == ReorderObjection(db, rank, ids, i)
      {
        if ids[i] !in db.roles { return Failed(NotFound); }
        if db.roles[ids[i]].isDefault { return Failed(InvalidArgument); }
        if rank <= db.roles[ids[i]].position || rank <= NewPosition(|ids|, i) {
          return Failed(PermissionDenied);
        }
      }
      var roles := db.roles;
      for i := 0 to |ids|
        invariant roles == Repositioned(db.roles, ids, i)
      {
        if ids[i] in roles && !roles[ids[i]].isDefault {
          roles := roles[ids[i] := roles[ids[i]].(position := NewPosition(|ids|, i))];
        }
      }
      db := db.(roles := roles);
      outcome := Done;
    }

    method AssignRole(caller: UserId, user: UserId, role: RoleId) returns (outcome: Outcome)
      modifies this
      ensures outcome == Answer(old(db), Assign(caller, user, role))
      ensures db == Step(old(db), Assign(caller, user, role))
    {
      if !May(db, caller, MANAGE_ROLES) { return Failed(PermissionDenied); }
      if role !in db.roles { return Failed(NotFound); }
      if Escalates(db, caller, db.roles[role].permissions) { return Failed(PermissionDenied); }
      if !RoleBelow(db, caller, db.roles[role].position) { return Failed(PermissionDenied); }
      if !CanActOn(db, caller, user) { return Failed(PermissionDenied); }
      db := db.(held := db.held + {(user, role)});
      outcome := Done;
    }

    method UnassignRole(caller: UserId, user: UserId, role: RoleId) returns (outcome: Outcome)
      modifies this
      ensures outcome == Answer(old(db), Unassign(caller, user, role))
      ensures db == Step(old(db), Unassign(caller, user, role))
    {
      if !May(db, caller, MANAGE_ROLES) { return Failed(PermissionDenied); }
      if role !in db.roles { return Failed(NotFound); }
      if !RoleBelow(db, caller, db.roles[role].position) { return Failed(PermissionDenied); }
      if !CanActOn(db, caller, user) { return Failed(PermissionDenied); }
      db := db.(held := db.held - {(user, role)});
      outcome := Done;
    }
  }

  // ----- the ceiling of a coalition -----

  /** What stays between the start `db0` of a coalition's run and a later `db`: the accounts, and
      every role at or above the ceiling with its holders; any other role is below the ceiling, or
      was created since and is held by nobody. */
  ghost predicate Capped(db0: Db, db: Db, ceiling: nat)
  {
    && db.users == db0.users
    && (forall r | r in db0.roles && db0.roles[r].position >= ceiling ::
          && r in db.roles && db.roles[r] == db0.roles[r]
          && forall u :: (u, r) in db.held <==> (u, r) in db0.held)
    && (forall r | r in db.roles && db.roles[r].position >= ceiling ::
          (r in db0.roles && db0.roles[r].position >= ceiling) || forall u :: (u, r) !in db.held)
  }

  lemma {:induction false} RepositionedAt(roles: map<RoleId, Role>, ids: seq<RoleId>, i: nat, r: RoleId)
    requires i <= |ids| && r in roles
    ensures r !in ids[..i] ==> Repositioned(roles, ids, i)[r] == roles[r]
    ensures Repositioned(roles, ids, i)[r].permissions == roles[r].permissions
    ensures Repositioned(roles, ids, i)[r].isDefault == roles[r].isDefault
    ensures r in ids[..i] && !roles[r].isDefault ==>
      exists k | 0 <= k < i :: ids[k] == r && Repositioned(roles, ids, i)[r].position == NewPosition(|ids|, k)
  {
    if i > 0 {
      RepositionedAt(roles, ids, i - 1, r);
      assert ids[..i] == ids[..i - 1] + [ids[i - 1]];
    }
  }

  lemma {:induction false} ReorderAllowed(db: Db, rank: int, ids: seq<RoleId>, i: nat, k: nat)
    requires i <= k < |ids| && ReorderObjection(db, rank, ids, i) == Done
    ensures ids[k] in db.roles && !db.roles[ids[k]].isDefault
    ensures db.roles[ids[k]].position < rank && NewPosition(|ids|, k) < rank
    decreases |ids| - i
  {
    if i < k {
      ReorderAllowed(db, rank, ids, i + 1, k);
    }
  }

  /** A coalition member's rank stays at or below the ceiling. */
  lemma CappedRank(db0: Db, db: Db, ceiling: nat, u: UserId)
    requires Capped(db0, db, ceiling) && !IsOwner(db0, u)
    ensures Rank(db0, u) <= ceiling ==> Rank(db, u) <= ceiling
    ensures Rank(db0, u) > ceiling ==> Rank(db, u) == Rank(db0, u)
  {
    RankMeans(db0, u);
    RankMeans(db, u);
    if Rank(db0, u) > ceiling {
      var top :| top in RolesOf(db0, u) && db0.roles[top].position == Rank(db0, u);
      assert top in RolesOf(db, u) && db.roles[top].position == Rank(db0, u);
    }
    forall r | r in RolesOf(db, u) && db.roles[r].position >= ceiling
      ensures r in RolesOf(db0, u) && db.roles[r].position <= Rank(db0, u)
    {
    }
  }

  /** Any role a non-owner's operation touches is below the ceiling before and after it. */
  lemma StepStaysCapped(db0: Db, db: Db, ceiling: nat, op: Op)
    requires Capped(db0, db, ceiling) && Enabled(db, op)
    requires !IsOwner(db0, op.caller) && Rank(db0, op.caller) <= ceiling
    ensures Capped(db0, Step(db, op), ceiling)
  {
    CappedRank(db0, db, ceiling, op.caller);
    assert Rank(db, op.caller) <= ceiling;
    if Answer(db, op) == Done && op.Reorder? {
      forall r | r in db.roles
        ensures Step(db, op).roles[r] == db.roles[r]
          || (db.roles[r].position < ceiling && Step(db, op).roles[r].position < ceiling)
      {
        RepositionedAt(db.roles, op.ids, |op.ids|, r);
        assert op.ids[..|op.ids|] == op.ids;
        if r in op.ids {
          var j :| 0 <= j < |op.ids| && op.ids[j] == r;
          ReorderAllowed(db, Rank(db, op.caller), op.ids, 0, j);
          var k :| 0 <= k < |op.ids| && op.ids[k] == r
            && Step(db, op).roles[r].position == NewPosition(|op.ids|, k);
          ReorderAllowed(db, Rank(db, op.caller), op.ids, 0, k);
        }
      }
    }
  }

  lemma {:induction false} RunStaysCapped(db0: Db, db: Db, ceiling: nat, ops: seq<Op>)
    requires Capped(db0, db, ceiling) && Possible(db, ops)
    requires forall i | 0 <= i < |ops| ::
      !IsOwner(db0, ops[i].caller) && Rank(db0, ops[i].caller) <= ceiling
    ensures Capped(db0, Run(db, ops), ceiling)
    decreases |ops|
  {
    if ops != [] {
      StepStaysCapped(db0, db, ceiling, ops[0]);
      RunStaysCapped(db0, Step(db, ops[0]), ceiling, ops[1..]);
    }
  }

  /** In any run of role operations by non-owners none of whom starts above `ceiling`: nobody who
      started at or below the ceiling ends above it, everybody who started above it keeps exactly
      their rank, and every role that started at or above it keeps its position, permissions and
      holders. */
  lemma CoalitionCeiling(db: Db, ceiling: nat, ops: seq<Op>, u: UserId, r: RoleId)
    requires Possible(db, ops)
    requires forall i | 0 <= i < |ops| ::
      !IsOwner(db, ops[i].caller) && Rank(db, ops[i].caller) <= ceiling
    ensures Rank(db, u) <= ceiling ==> Rank(Run(db, ops), u) <= ceiling
    ensures Rank(db, u) > ceiling ==> Rank(Run(db, ops), u) == Rank(db, u)
    ensures r in db.roles && db.roles[r].position >= ceiling ==>
      && r in Run(db, ops).roles && Run(db, ops).roles[r] == db.roles[r]
      && ((u, r) in Run(db, ops).held <==> (u, r) in db.held)
  {
    RunStaysCapped(db, db, ceiling, ops);
    if !IsOwner(db, u) {
      CappedRank(db, Run(db, ops), ceiling, u);
    }
  }

  /** A new role lands above every existing one, so out of the reach of every non-owner, its
      creator included. (The default role sits at position 0.) */
  lemma CreatedOutOfReach(db: Db, everyone: RoleId, op: Op, u: UserId)
    requires everyone in db.roles && db.roles[everyone].position >= 0
    requires op.Create? && Enabled(db, op) && Answer(db, op) == Done && !IsOwner(db, u)
    ensures !RoleBelow(Step(db, op), u, Step(db, op).roles[op.id].position)
    ensures Rank(Step(db, op), u) == Rank(db, u)
  {
    var next := Step(db, op);
    assert RolesOf(next, u) == RolesOf(db, u);
    RankMeans(db, u);
    RankMeans(next, u);
    assert db.roles[everyone].position in Positions(db, db.roles.Keys);
    if RolesOf(db, u) != {} {
      var r :| r in RolesOf(db, u) && db.roles[r].position == Rank(db, u);
      assert db.roles[r].position in Positions(db, db.roles.Keys);
    }
  }

  /** An accepted order of distinct roles is exactly the order they end up in, top first, with
      everything unlisted left alone. */
  lemma ReorderSetsOrder(db: Db, caller: UserId, ids: seq<RoleId>, k: nat, other: RoleId)
    requires Answer(db, Reorder(caller, ids)) == Done
    requires forall i, j :: 0 <= i < j < |ids| ==> ids[i] != ids[j]
    requires k < |ids| && other in db.roles && other !in ids
    ensures ids[k] in db.roles && ids[k] in Step(db, Reorder(caller, ids)).roles
    ensures Step(db, Reorder(caller, ids)).roles[ids[k]] == db.roles[ids[k]].(position := |ids| - k)
    ensures Step(db, Reorder(caller, ids)).roles[other] == db.roles[other]
  {
    assert ids[..|ids|] == ids;
    ReorderAllowed(db, Rank(db, caller), ids, 0, k);
    RepositionedAt(db.roles, ids, |ids|, ids[k]);
    RepositionedAt(db.roles, ids, |ids|, other);
  }

  // ----- containment of the administrator bit -----

  /** The users who can do everything. */
  predicate HasAdmin(db: Db, u: UserId) { IsAdmin(Effective(db, u)) }

  /** What a role operation by somebody without the bit cannot add. */
  lemma StepAddsNoAdmin(db: Db, op: Op, u: UserId)
    requires Enabled(db, op) && !HasAdmin(db, op.caller)
    ensures HasAdmin(Step(db, op), u) ==> HasAdmin(db, u)
  {
    var next := Step(db, op);
    assert next.users == db.users;
    if HasAdmin(next, u) && !IsOwner(db, u) {
      var r :| r in next.roles && (next.roles[r].isDefault || (u, r) in next.held)
        && ADMINISTRATOR in next.roles[r].permissions;
      if op.Reorder? && next != db {
        RepositionedAt(db.roles, op.ids, |op.ids|, r);
      }
      assert r in db.roles && (db.roles[r].isDefault || (u, r) in db.held)
        && ADMINISTRATOR in db.roles[r].permissions;
      assert ADMINISTRATOR in MemberPermissions(db, u);
    }
  }

  /** Over any run whose callers all start without effective ADMINISTRATOR, nobody gains it. */
  lemma {:induction false} AdminContained(db: Db, ops: seq<Op>, u: UserId)
    requires Possible(db, ops)
    requires forall i | 0 <= i < |ops| :: !HasAdmin(db, ops[i].caller)
    ensures HasAdmin(Run(db, ops), u) ==> HasAdmin(db, u)
    decreases |ops|
  {
    if ops != [] {
      forall i | 0 <= i < |ops| ensures !HasAdmin(Step(db, ops[0]), ops[i].caller) {
        StepAddsNoAdmin(db, ops[0], ops[i].caller);
      }
      StepAddsNoAdmin(db, ops[0], u);
      AdminContained(Step(db, ops[0]), ops[1..], u);
    }
  }
}
