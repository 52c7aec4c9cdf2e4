/** Sessions: login finds or makes a device and stores a refresh token; using a token replaces it.
    Each handler is one step, and the token ids drawn are fresh. */
module RefreshTokens {
  import opened Options

  type UserId = nat
  type DeviceId = nat
  type Token = nat

  const TTL := 30.0 * 24.0 * 3600.0

  datatype Row = Row(user: UserId, device: DeviceId, expires: real)

  datatype Sessions = Sessions(devices: map<(UserId, string), DeviceId>, tokens: map<Token, Row>)

  /** One request, with the ids it would draw: a device row if none has this name, and a token. */
  datatype Op =
    | Login(user: UserId, name: string, newDevice: DeviceId, token: Token, now: real)
    | Refresh(presented: Token, token: Token, now: real)
    | Revoke(caller: UserId, device: DeviceId)

  /** An install's device is found by the name it sends; a blank one counts as a name too. */
  function DeviceFor(s: Sessions, op: Op): DeviceId
    requires op.Login?
  {
    if DeviceKey(op) in s.devices then s.devices[DeviceKey(op)] else op.newDevice
  }

  function DeviceKey(op: Op): (UserId, string)
    requires op.Login?
  {
    (op.user, if op.name == "" then "Unknown device" else op.name)
  }

  predicate Succeeds(s: Sessions, op: Op)
  {
    op.Refresh? ==> op.presented in s.tokens && op.now <= s.tokens[op.presented].expires
  }

  function Step(s: Sessions, op: Op): Sessions
  {
    if !Succeeds(s, op) then s
    else match op
      case Login(user, _, _, token, now) =>
        var device := DeviceFor(s, op);
        Sessions(s.devices[DeviceKey(op) := device], s.tokens[token := Row(user, device, now + TTL)])
      case Refresh(presented, token, now) =>
        var row := s.tokens[presented];
        s.(tokens := s.tokens[token := row.(expires := now + TTL)] - {presented})
      case Revoke(caller, device) =>
        s.(devices := map k | k in s.devices && !(k.0 == caller && s.devices[k] == device) :: s.devices[k])
  }

  /** The state after the first `n` requests. */
  function After(s: Sessions, ops: seq<Op>, n: nat): Sessions
    requires n <= |ops|
  {
    if n == 0 then s else Step(After(s, ops, n - 1), ops[n - 1])
  }

  predicate Draws(op: Op, t: Token) { !op.Revoke? && op.token == t }

  /** No token id is drawn twice, or while in the store at the start. */
  predicate FreshTokens(s: Sessions, ops: seq<Op>)
  {
    && (forall i, j | 0 <= i < j < |ops| && !ops[i].Revoke? :: !Draws(ops[j], ops[i].token))
    && (forall i | 0 <= i < |ops| && !ops[i].Revoke? :: ops[i].token !in s.tokens)
  }

  const NOTHING := Sessions(map[], map[])

  // ----- a token works once -----

  /** A stored token was there at the start or drawn by an earlier request. */
  lemma {:induction false} StoredWasDrawn(s: Sessions, ops: seq<Op>, n: nat, t: Token)
    requires n <= |ops| && t in After(s, ops, n).tokens
    ensures t in s.tokens || exists k | 0 <= k < n :: Draws(ops[k], t)
  {
    if n > 0 && !Draws(ops[n - 1], t) {
      StoredWasDrawn(s, ops, n - 1, t);
    }
  }

  lemma {:induction false} GoneStaysGone(s: Sessions, ops: seq<Op>, i: nat, j: nat, t: Token)
    requires i <= j <= |ops| && t !in After(s, ops, i).tokens
    requires forall k | i <= k < j :: !Draws(ops[k], t)
    ensures t !in After(s, ops, j).tokens
    decreases j
  {
    if i < j {
      GoneStaysGone(s, ops, i, j - 1, t);
    }
  }

  /** Each refresh token succeeds at most once in a run. */
  lemma SingleUse(s: Sessions, ops: seq<Op>, i: nat, j: nat)
    requires FreshTokens(s, ops) && i < j < |ops|
    requires ops[i].Refresh? && ops[j].Refresh? && ops[i].presented == ops[j].presented
    requires Succeeds(After(s, ops, i), ops[i])
    ensures !Succeeds(After(s, ops, j), ops[j])
  {
    var t := ops[i].presented;
    StoredWasDrawn(s, ops, i, t);
    assert t !in After(s, ops, i + 1).tokens;
    GoneStaysGone(s, ops, i + 1, j, t);
  }

  // ----- every successor belongs to the login that began its chain -----

  /** The login at the head of the chain of replacements that led to `t`, among the first `n`. */
  function Origin(ops: seq<Op>, n: nat, t: Token): Option<nat>
    requires n <= |ops|
  {
    if n == 0 then None
    else if !Draws(ops[n - 1], t) then Origin(ops, n - 1, t)
    else if ops[n - 1].Login? then Some(n - 1)
    else Origin(ops, n - 1, ops[n - 1].presented)
  }

  /** A stored token names the user and device of the login that began its chain. */
  lemma {:induction false} ChainKeepsIdentity(ops: seq<Op>, n: nat, t: Token)
    requires FreshTokens(NOTHING, ops) && n <= |ops|
    requires t in After(NOTHING, ops, n).tokens
    ensures
      var k := Origin(ops, n, t);
      && k.Some? && k.value < n && ops[k.value].Login?
      && After(NOTHING, ops, n).tokens[t].user == ops[k.value].user
      && After(NOTHING, ops, n).tokens[t].device == DeviceFor(After(NOTHING, ops, k.value), ops[k.value])
    decreases n
  {
    if n > 0 {
      var op, before := ops[n - 1], After(NOTHING, ops, n - 1);
      if t in before.tokens {
        StoredWasDrawn(NOTHING, ops, n - 1, t);
        ChainKeepsIdentity(ops, n - 1, t);
      } else {
        assert Draws(op, t);
        if op.Refresh? {
          ChainKeepsIdentity(ops, n - 1, op.presented);
        }
      }
    }
  }

  // ----- as many tokens as logins -----

  function TokensOf(s: Sessions, d: DeviceId): set<Token>
  {
    set t | t in s.tokens && s.tokens[t].device == d
  }

  function LoginsOn(ops: seq<Op>, n: nat, d: DeviceId): nat
    requires n <= |ops|
  {
    if n == 0 then 0
    else
      LoginsOn(ops, n - 1, d)
      + (if ops[n - 1].Login? && DeviceFor(After(NOTHING, ops, n - 1), ops[n - 1]) == d then 1 else 0)
  }

  /** The tokens stored for a device number exactly the logins issued for it, however often they
      have been replaced. */
  lemma {:induction false} TokensMatchLogins(ops: seq<Op>, n: nat, d: DeviceId)
    requires FreshTokens(NOTHING, ops) && n <= |ops|
    ensures |TokensOf(After(NOTHING, ops, n), d)| == LoginsOn(ops, n, d)
    decreases n
  {
    if n == 0 {
      assert TokensOf(NOTHING, d) == {};
    } else {
      TokensMatchLogins(ops, n - 1, d);
      var op, before := ops[n - 1], After(NOTHING, ops, n - 1);
      var was, after := TokensOf(before, d), TokensOf(Step(before, op), d);
      if Succeeds(before, op) && !op.Revoke? {
        if op.token in before.tokens { StoredWasDrawn(NOTHING, ops, n - 1, op.token); }
        var row := Step(before, op).tokens[op.token];
        if op.Login? {
          assert after == if row.device == d then was + {op.token} else was;
        } else {
          assert after == if row.device == d then was + {op.token} - {op.presented} else was;
        }
      } else {
        assert after == was;
      }
    }
  }

  // ----- the service -----

  class AuthService {
    var s: Sessions

    constructor ()
      ensures s == NOTHING
    {
      s := NOTHING;
    }

    method IssueSession(user: UserId, name: string, newDevice: DeviceId, token: Token, now: real)
      returns (device: DeviceId)
      modifies this
      ensures s == Step(old(s), Login(user, name, newDevice, token, now))
      ensures device == DeviceFor(old(s), Login(user, name, newDevice, token, now))
    {
      var key := (user, if name == "" then "Unknown device" else name);
      if key in s.devices {
        device := s.devices[key];
      } else {
        device := newDevice;
      }
      s := Sessions(s.devices[key := device], s.tokens[token := Row(user, device, now + TTL)]);
    }

    /** Stores the successor first and then deletes the presented token. */
    method RefreshToken(presented: Token, token: Token, now: real) returns (row: Option<Row>)
      requires token != presented
      modifies this
      ensures s == Step(old(s), Refresh(presented, token, now))
      ensures row.Some? <==> Succeeds(old(s), Refresh(presented, token, now))
      ensures row.Some? ==> row.value == old(s).tokens[presented]
    {
      if presented !in s.tokens { return None; }
      var found := s.tokens[presented];
      if found.expires < now { return None; }
      s := s.(tokens := s.tokens[token := found.(expires := now + TTL)]);
      s := s.(tokens := s.tokens - {presented});
      row := Some(found);
    }
  }
}
