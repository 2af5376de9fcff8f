// Sessions and credentials: refresh-token families, password-set tokens and the
// passwords they guard. Token hashing is injective, so a hash names its token.

module Accounts {
  import opened Prelude

  type UserId = string
  type FamilyId = string
  type Hash = string

  datatype User = User(email: string, passwordHash: Hash, active: bool)

  datatype RefreshToken = RefreshToken(user: UserId, family: FamilyId, expiresAt: int, revokedAt: Option<int>)

  datatype Purpose = Invite | Reset

  datatype ResetToken = ResetToken(user: UserId, purpose: Purpose, expiresAt: int, usedAt: Option<int>)

  datatype Membership = Membership(active: bool, licensed: bool)

  /** The three tables. */
  datatype Tables = Tables(users: map<UserId, User>, refresh: map<Hash, RefreshToken>, resets: map<Hash, ResetToken>)

  datatype Denial = InvalidCredentials | MemberInactive | NoLicense | InvalidToken | TokenReuseDetected

  const INVITE_TTL := 7 * DAY
  const RESET_TTL := 3_600_000_000
  const PURGE_GRACE := 30 * DAY

  // --- revocation --------------------------------------------------------------

  function RevokeFamily(tokens: map<Hash, RefreshToken>, family: FamilyId, now: int): map<Hash, RefreshToken> {
    map h | h in tokens ::
      if tokens[h].family == family && tokens[h].revokedAt.None? then tokens[h].(revokedAt := Some(now)) else tokens[h]
  }

  function RevokeUser(tokens: map<Hash, RefreshToken>, user: UserId, now: int): map<Hash, RefreshToken> {
    map h | h in tokens ::
      if tokens[h].user == user && tokens[h].revokedAt.None? then tokens[h].(revokedAt := Some(now)) else tokens[h]
  }

  /** Signing in needs one active, licensed membership, or no membership at all. */
  function Gate(memberships: seq<Membership>): Option<Denial> {
    if memberships == [] then None
    else if !exists m | m in memberships :: m.active then Some(MemberInactive)
    else if !exists m | m in memberships :: m.active && m.licensed then Some(NoLicense)
    else None
  }

  // --- the operations, on tables ------------------------------------------------

  function IssueTokens(t: Tables, user: UserId, family: FamilyId, minted: Hash, expiresAt: int): Tables {
    t.(refresh := t.refresh[minted := RefreshToken(user, family, expiresAt, None)])
  }

  /** Why a presented refresh token is turned down, if it is. */
  function RotateDenial(t: Tables, presented: Hash, memberships: seq<Membership>, now: int): Option<Denial> {
    if presented !in t.refresh then Some(InvalidToken)
    else
      var stored := t.refresh[presented];
      if stored.revokedAt.Some? then Some(TokenReuseDetected)
      else if stored.expiresAt <= now then Some(InvalidToken)
      else if stored.user !in t.users || !t.users[stored.user].active then Some(InvalidToken)
      else Gate(memberships)
  }

  function Rotate(t: Tables, presented: Hash, memberships: seq<Membership>, minted: Hash, now: int, ttl: int): Tables {
    match RotateDenial(t, presented, memberships, now)
    case Some(TokenReuseDetected) =>
      if presented in t.refresh then t.(refresh := RevokeFamily(t.refresh, t.refresh[presented].family, now)) else t
    case Some(_) => t
    case None =>
      if presented !in t.refresh then t
      else
        var stored := t.refresh[presented];
        IssueTokens(t.(refresh := t.refresh[presented := stored.(revokedAt := Some(now))]),
                    stored.user, stored.family, minted, now + ttl)
  }

  function Logout(t: Tables, presented: Hash, now: int): Tables {
    if presented in t.refresh then t.(refresh := RevokeFamily(t.refresh, t.refresh[presented].family, now)) else t
  }

  function SetPassword(t: Tables, user: UserId, hash: Hash, now: int): Tables
    requires user in t.users
  {
    t.(users := t.users[user := t.users[user].(passwordHash := hash)], refresh := RevokeUser(t.refresh, user, now))
  }

  function Ttl(purpose: Purpose): int { if purpose == Invite then INVITE_TTL else RESET_TTL }

  function Issue(t: Tables, user: UserId, purpose: Purpose, minted: Hash, now: int): Tables {
    var superseded := map h | h in t.resets ::
      if t.resets[h].user == user && t.resets[h].usedAt.None? then t.resets[h].(usedAt := Some(now)) else t.resets[h];
    t.(resets := superseded[minted := ResetToken(user, purpose, now + Ttl(purpose), None)])
  }

  predicate Redeemable(t: Tables, token: Hash, now: int) {
    && token in t.resets && t.resets[token].usedAt.None? && t.resets[token].expiresAt > now
    && t.resets[token].user in t.users && t.users[t.resets[token].user].active
  }

  function Redeem(t: Tables, token: Hash, passwordHash: Hash, now: int): Tables {
    if !Redeemable(t, token, now) then t
    else
      var user := t.resets[token].user;
      SetPassword(t, user, passwordHash, now).(resets := t.resets[token := t.resets[token].(usedAt := Some(now))])
  }

  function PurgeExpired(t: Tables, now: int): Tables {
    t.(resets := map h | h in t.resets && t.resets[h].expiresAt >= now - PURGE_GRACE :: t.resets[h])
  }

  // --- row by row -----------------------------------------------------------------

  function OfFamily(tokens: map<Hash, RefreshToken>, family: FamilyId): set<Hash> {
    set h | h in tokens && tokens[h].family == family
  }

  function OfUser(tokens: map<Hash, RefreshToken>, user: UserId): set<Hash> {
    set h | h in tokens && tokens[h].user == user
  }

  /** These tokens are all revoked now, those already revoked keeping their time; no other row changes. */
  predicate Ended(before: map<Hash, RefreshToken>, after: map<Hash, RefreshToken>, ended: set<Hash>, now: int) {
    && after.Keys == before.Keys
    && (forall h | h in before && h in ended && before[h].revokedAt.None? ::
          after[h] == RefreshToken(before[h].user, before[h].family, before[h].expiresAt, Some(now)))
    && (forall h | h in before && (h !in ended || before[h].revokedAt.Some?) :: after[h] == before[h])
  }

  /** A token may be exchanged: known, unrevoked, unexpired, of an active user who has no membership or
      an active licensed one. */
  predicate Exchangeable(t: Tables, presented: Hash, memberships: seq<Membership>, now: int) {
    && presented in t.refresh && t.refresh[presented].revokedAt == None && now < t.refresh[presented].expiresAt
    && t.refresh[presented].user in t.users && t.users[t.refresh[presented].user].active
    && (|memberships| == 0 || exists i | 0 <= i < |memberships| :: memberships[i].active && memberships[i].licensed)
  }

  // --- the services -------------------------------------------------------------

  /** Password hashing: only its answers are used. */
  datatype Hasher = Hasher(verify: (Hash, string) -> bool, hash: string -> Hash, needsRehash: Hash -> bool)

  class Services {
    var users: map<UserId, User>
    var refresh: map<Hash, RefreshToken>
    var resets: map<Hash, ResetToken>

    ghost function State(): Tables
      reads this
    {
      Tables(users, refresh, resets)
    }

    constructor (users: map<UserId, User>)
      ensures State() == Tables(users, map[], map[])
    {
      this.users, refresh, resets := users, map[], map[];
    }

    /** `found` is the row the address query returned. Accepts exactly an active account's own password. */
    method Authenticate(found: Option<UserId>, password: string, hasher: Hasher) returns (r: Result<UserId, Denial>)
      requires found.Some? ==> found.value in users
      modifies `users
      ensures r.Ok? <==>
        && found.Some? && hasher.verify(old(users)[found.value].passwordHash, password)
        && old(users)[found.value].active
      ensures r.Ok? ==> r.value == found.value
      ensures r == Fail(MemberInactive) <==>
        found.Some? && hasher.verify(old(users)[found.value].passwordHash, password) && !old(users)[found.value].active
      ensures r.Fail? ==> r.error in {InvalidCredentials, MemberInactive} && users == old(users)
      ensures r.Ok? ==> users == if hasher.needsRehash(old(users)[r.value].passwordHash)
                                 then old(users)[r.value := old(users)[r.value].(passwordHash := hasher.hash(password))]
                                 else old(users)
    {
      if found.None? {
        return Fail(InvalidCredentials);
      }
      var user := users[found.value];
      if !hasher.verify(user.passwordHash, password) {
        return Fail(InvalidCredentials);
      }
      if !user.active {
        return Fail(MemberInactive);
      }
      if hasher.needsRehash(user.passwordHash) {
        users := users[found.value := user.(passwordHash := hasher.hash(password))];
      }
      return Ok(found.value);
    }

    method IssueTokensFor(user: UserId, family: FamilyId, minted: Hash, now: int, ttl: int)
      modifies `refresh
      ensures State() == IssueTokens(old(State()), user, family, minted, now + ttl)
      ensures refresh == old(refresh)[minted := RefreshToken(user, family, now + ttl, None)]
    {
      refresh := refresh[minted := RefreshToken(user, family, now + ttl, None)];
    }

    method RevokeFamilyOf(family: FamilyId, now: int)
      modifies `refresh
      ensures refresh == RevokeFamily(old(refresh), family, now)
      ensures Ended(old(refresh), refresh, OfFamily(old(refresh), family), now)
    {
      refresh := map h | h in refresh ::
        if refresh[h].family == family && refresh[h].revokedAt.None? then refresh[h].(revokedAt := Some(now))
        else refresh[h];
    }

    method RevokeAllForUser(user: UserId, now: int)
      modifies `refresh
      ensures refresh == RevokeUser(old(refresh), user, now)
      ensures Ended(old(refresh), refresh, OfUser(old(refresh), user), now)
    {
      refresh := map h | h in refresh ::
        if refresh[h].user == user && refresh[h].revokedAt.None? then refresh[h].(revokedAt := Some(now))
        else refresh[h];
    }

    method RotateToken(presented: Hash, memberships: seq<Membership>, minted: Hash, now: int, ttl: int)
      returns (r: Result<UserId, Denial>)
      modifies `refresh
      ensures State() == Rotate(old(State()), presented, memberships, minted, now, ttl)
      ensures match RotateDenial(old(State()), presented, memberships, now)
              case Some(denial) => r == Fail(denial)
              case None => r.Ok? && presented in old(refresh) && r.value == old(refresh)[presented].user
      ensures r.Ok? <==> Exchangeable(old(State()), presented, memberships, now)
      ensures r.Ok? ==>
        var stored := old(refresh)[presented];
        refresh == old(refresh)[presented := stored.(revokedAt := Some(now))]
                               [minted := RefreshToken(stored.user, stored.family, now + ttl, None)]
      ensures r == Fail(TokenReuseDetected) <==> presented in old(refresh) && old(refresh)[presented].revokedAt.Some?
      ensures r == Fail(TokenReuseDetected) ==>
        Ended(old(refresh), refresh, OfFamily(old(refresh), old(refresh)[presented].family), now)
      ensures r.Fail? && r != Fail(TokenReuseDetected) ==> refresh == old(refresh)
      ensures r == Fail(InvalidToken) ==> presented in old(refresh) ==>
        || old(refresh)[presented].expiresAt <= now || old(refresh)[presented].user !in users
        || !users[old(refresh)[presented].user].active
      ensures r == Fail(MemberInactive) ==> forall m | m in memberships :: !m.active
      ensures r == Fail(NoLicense) ==>
        (exists m :: m in memberships && m.active) && forall m | m in memberships && m.active :: !m.licensed
    {
      if presented !in refresh {
        return Fail(InvalidToken);
      }
      var stored := refresh[presented];
      if stored.revokedAt.Some? {
        RevokeFamilyOf(stored.family, now);
        return Fail(TokenReuseDetected);
      }
      if stored.expiresAt <= now {
        return Fail(InvalidToken);
      }
      if stored.user !in users || !users[stored.user].active {
        return Fail(InvalidToken);
      }
      var gate := Gate(memberships);
      if gate.Some? {
        return Fail(gate.value);
      }
      refresh := refresh[presented := stored.(revokedAt := Some(now))];
      IssueTokensFor(stored.user, stored.family, minted, now, ttl);
      return Ok(stored.user);
    }

    method LogoutToken(presented: Hash, now: int)
      modifies `refresh
      ensures State() == Logout(old(State()), presented, now)
      ensures presented in old(refresh) ==>
        Ended(old(refresh), refresh, OfFamily(old(refresh), old(refresh)[presented].family), now)
      ensures presented !in old(refresh) ==> refresh == old(refresh)
    {
      if presented in refresh {
        RevokeFamilyOf(refresh[presented].family, now);
      }
    }

    method ChangePassword(user: UserId, current: string, replacement: string, hasher: Hasher, now: int)
      returns (changed: bool)
      requires user in users
      modifies `users, `refresh
      ensures changed <==> hasher.verify(old(users)[user].passwordHash, current)
      ensures State()
           == if changed then SetPassword(old(State()), user, hasher.hash(replacement), now) else old(State())
      ensures changed ==>
        && users == old(users)[user := old(users)[user].(passwordHash := hasher.hash(replacement))]
        && Ended(old(refresh), refresh, OfUser(old(refresh), user), now)
      ensures !changed ==> users == old(users) && refresh == old(refresh)
    {
      if !hasher.verify(users[user].passwordHash, current) {
        return false;
      }
      users := users[user := users[user].(passwordHash := hasher.hash(replacement))];
      RevokeAllForUser(user, now);
      return true;
    }

    method IssueReset(user: UserId, purpose: Purpose, minted: Hash, now: int)
      modifies `resets
      ensures State() == Issue(old(State()), user, purpose, minted, now)
      ensures resets.Keys == old(resets).Keys + {minted}
      ensures resets[minted]
           == ResetToken(user, purpose, now + (if purpose.Invite? then 7 * 24 else 1) * 3_600_000_000, None)
      ensures forall h | h in old(resets) && h != minted ::
        resets[h] == if old(resets)[h].user == user && old(resets)[h].usedAt == None
                     then old(resets)[h].(usedAt := Some(now)) else old(resets)[h]
    {
      resets := map h | h in resets ::
        if resets[h].user == user && resets[h].usedAt.None? then resets[h].(usedAt := Some(now)) else resets[h];
      resets := resets[minted := ResetToken(user, purpose, now + Ttl(purpose), None)];
    }

    method RedeemReset(token: Hash, passwordHash: Hash, now: int) returns (r: Result<UserId, Denial>)
      modifies this
      ensures State() == Redeem(old(State()), token, passwordHash, now)
      ensures r.Ok? <==> Redeemable(old(State()), token, now)
      ensures r.Fail? ==> r.error == InvalidToken
      ensures r.Ok? ==> r.value == old(resets)[token].user
      ensures r.Ok? <==>
        && token in old(resets) && old(resets)[token].usedAt == None && now < old(resets)[token].expiresAt
        && old(resets)[token].user in old(users) && old(users)[old(resets)[token].user].active
      ensures r.Ok? ==>
        && users == old(users)[r.value := old(users)[r.value].(passwordHash := passwordHash)]
        && resets == old(resets)[token := old(resets)[token].(usedAt := Some(now))]
        && Ended(old(refresh), refresh, OfUser(old(refresh), r.value), now)
      ensures r.Fail? ==> unchanged(this)
    {
      if token !in resets || resets[token].usedAt.Some? || resets[token].expiresAt <= now {
        return Fail(InvalidToken);
      }
      var record := resets[token];
      if record.user !in users || !users[record.user].active {
        return Fail(InvalidToken);
      }
      users := users[record.user := users[record.user].(passwordHash := passwordHash)];
      resets := resets[token := record.(usedAt := Some(now))];
      RevokeAllForUser(record.user, now);
      return Ok(record.user);
    }

    method Purge(now: int) returns (removed: nat)
      modifies `resets
      ensures State() == PurgeExpired(old(State()), now)
      ensures removed == |old(resets)| - |resets|
      ensures forall h :: h in resets <==> h in old(resets) && old(resets)[h].expiresAt >= now - 30 * 24 * 3_600_000_000
      ensures forall h | h in resets :: resets[h] == old(resets)[h]
    {
      ghost var before := resets;
      var kept := map h | h in resets && resets[h].expiresAt >= now - PURGE_GRACE :: resets[h];
      assert kept.Keys <= resets.Keys;
      SubsetSize(kept.Keys, resets.Keys);
      removed := |resets| - |kept|;
      resets := kept;
    }
  }
}
