/** The stored accounts, roles and role assignments, and the authorisation rules read off them. */
module Directory {

  type UserId = nat
  type RoleId = nat

  // ----- permissions: the 64 bits of the bitfield, as the set of those that are on -----

  type Bit = b: nat | b < 64

  type Permissions = set<Bit>

  const ADMINISTRATOR: Bit := 0
  const MANAGE_CHANNELS: Bit := 4
  const MANAGE_ROLES: Bit := 5
  const CREATE_INVITE: Bit := 6
  const KICK_MEMBERS: Bit := 7
  const BAN_MEMBERS: Bit := 8

  /** Every defined permission: bits 0 to 13. */
  function AllPermissions(): Permissions { {0, 1, 2, 3, 4, 5, 6, 7, 8, 9, 10, 11, 12, 13} }

  /** The table of defined permissions. */
  const DEFINED: seq<Bit> := [0, 1, 2, 3, 4, 5, 6, 7, 8, 9, 10, 11, 12, 13]

  /** Ors the table together, entry by entry. */
  method All() returns (bits: Permissions)
    ensures bits == AllPermissions()
    ensures forall need: Bit :: Allows(bits, need)
  {
    bits := {};
    for i := 0 to |DEFINED|
      invariant forall b: Bit :: b in bits <==> b < i
    {
      assert DEFINED[i] == i;
      bits := bits + {DEFINED[i]};
    }
  }

  predicate IsAdmin(p: Permissions) { ADMINISTRATOR in p }

  predicate Allows(p: Permissions, need: Bit) { IsAdmin(p) || need in p }

  // ----- the store -----

  datatype Account = Account(isOwner: bool, isGuest: bool)

  datatype Role = Role(position: int, permissions: Permissions, isDefault: bool)

  datatype Db = Db(
    users: map<UserId, Account>,
    roles: map<RoleId, Role>,
    held: set<(UserId, RoleId)>)

  predicate IsOwner(db: Db, u: UserId) { u in db.users && db.users[u].isOwner }

  predicate IsGuest(db: Db, u: UserId) { u in db.users && db.users[u].isGuest }

  /** The existing roles assigned to a user. */
  function RolesOf(db: Db, u: UserId): set<RoleId> { set r | r in db.roles && (u, r) in db.held }

  lemma EmptyOrNot(s: set<int>)
    ensures s == {} || exists x :: x in s
  {
    if forall x :: x !in s {
      assert s == {};
    }
  }

  lemma {:induction false} HasHighest(s: set<int>)
    requires s != {}
    ensures exists m :: m in s && forall x | x in s :: x <= m
    decreases |s|
  {
    EmptyOrNot(s);
    var x :| x in s;
    var rest := s - {x};
    if rest != {} {
      HasHighest(rest);
      var m :| m in rest && forall y | y in rest :: y <= m;
      assert forall y | y in s :: y in rest || y == x;
      assert if x <= m then m in s && forall y | y in s :: y <= m else forall y | y in s :: y <= x;
    } else {
      assert s == {x};
    }
  }

  /** The highest of the numbers, or `floor` when there is none. */
  function HighestOr(s: set<int>, floor: int): (m: int)
    ensures s == {} ==> m == floor
    ensures s != {} ==> m in s && forall x | x in s :: x <= m
  {
    if s == {} then floor
    else
      HasHighest(s);
      var m :| m in s && forall x | x in s :: x <= m;
      m
  }

  function Positions(db: Db, ids: set<RoleId>): set<int>
  {
    set r | r in ids && r in db.roles :: db.roles[r].position
  }

  /** The highest position among a user's roles, 0 if there are none. */
  function HighestPosition(db: Db, u: UserId): int { HighestOr(Positions(db, RolesOf(db, u)), 0) }

  /** The bits of the default roles and of the user's own, together. */
  function MemberPermissions(db: Db, u: UserId): Permissions
  {
    set r, b | r in db.roles && (db.roles[r].isDefault || (u, r) in db.held)
               && b in db.roles[r].permissions :: b
  }

  // ----- authorisation -----

  const OWNER_RANK := 0x7FFF_FFFF

  function Effective(db: Db, u: UserId): Permissions
  {
    if IsOwner(db, u) then AllPermissions()
    else if IsGuest(db, u) then {}
    else MemberPermissions(db, u)
  }

  predicate May(db: Db, u: UserId, need: Bit) { Allows(Effective(db, u), need) }

  function Rank(db: Db, u: UserId): int
  {
    if IsOwner(db, u) then OWNER_RANK else HighestPosition(db, u)
  }

  predicate RoleBelow(db: Db, actor: UserId, position: int) { Rank(db, actor) > position }

  predicate CanActOn(db: Db, actor: UserId, target: UserId)
  {
    actor == target || (!IsOwner(db, target) && Rank(db, actor) > Rank(db, target))
  }

  /** A rank is a bound on the positions held, and is reached by one of them unless none is held. */
  lemma RankMeans(db: Db, u: UserId)
    requires !IsOwner(db, u)
    ensures forall r | r in RolesOf(db, u) :: db.roles[r].position <= Rank(db, u)
    ensures RolesOf(db, u) == {} ==> Rank(db, u) == 0
    ensures RolesOf(db, u) != {} ==> exists r | r in RolesOf(db, u) :: db.roles[r].position == Rank(db, u)
  {
    var positions := Positions(db, RolesOf(db, u));
    forall r | r in RolesOf(db, u) ensures db.roles[r].position in positions {
    }
    if RolesOf(db, u) != {} {
      assert positions != {} by {
        var r :| r in RolesOf(db, u);
        assert db.roles[r].position in positions;
      }
    }
  }
}
