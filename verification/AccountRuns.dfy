// Every run of sign-ins, rotations, sign-outs, password changes, resets and
// purges: what families and tokens keep.

module AccountRuns {
  import opened Prelude
  import opened Accounts

  /** The tables, with a history of every hash and family ever used and every token redeemed. */
  datatype State = State(tables: Tables, minted: set<Hash>, families: set<FamilyId>, redeemed: seq<Hash>)

  datatype Event =
    | AddUser(user: UserId, record: User)
    | SetActive(user: UserId, active: bool)
    | SignIn(user: UserId, family: FamilyId, hash: Hash, now: int, ttl: int)
    | Refresh(presented: Hash, memberships: seq<Membership>, hash: Hash, now: int, ttl: int)
    | SignOut(presented: Hash, now: int)
    | NewPassword(user: UserId, passwordHash: Hash, now: int)
    | IssueLink(user: UserId, purpose: Purpose, hash: Hash, now: int)
    | RedeemLink(token: Hash, passwordHash: Hash, now: int)
    | PurgeLinks(now: int)

  /** Fresh random tokens and family ids never repeat one already used. */
  predicate Enabled(s: State, e: Event) {
    match e
    case AddUser(user, _) => user !in s.tables.users
    case SetActive(user, _) => user in s.tables.users
    case SignIn(user, family, hash, _, _) => user in s.tables.users && family !in s.families && hash !in s.minted
    case Refresh(_, _, hash, _, _) => hash !in s.minted
    case NewPassword(user, _, _) => user in s.tables.users
    case IssueLink(user, _, hash, _) => user in s.tables.users && hash !in s.minted
    case _ => true
  }

  function Next(s: State, e: Event): State
    requires Enabled(s, e)
  {
    var t := s.tables;
    match e
    case AddUser(user, record) => s.(tables := t.(users := t.users[user := record]))
    case SetActive(user, active) => s.(tables := t.(users := t.users[user := t.users[user].(active := active)]))
    case SignIn(user, family, hash, now, ttl) =>
      State(IssueTokens(t, user, family, hash, now + ttl), s.minted + {hash}, s.families + {family}, s.redeemed)
    case Refresh(presented, memberships, hash, now, ttl) =>
      s.(tables := Rotate(t, presented, memberships, hash, now, ttl), minted := s.minted + {hash})
    case SignOut(presented, now) => s.(tables := Logout(t, presented, now))
    case NewPassword(user, passwordHash, now) => s.(tables := SetPassword(t, user, passwordHash, now))
    case IssueLink(user, purpose, hash, now) =>
      s.(tables := Issue(t, user, purpose, hash, now), minted := s.minted + {hash})
    case RedeemLink(token, passwordHash, now) =>
      s.(tables := Redeem(t, token, passwordHash, now),
         redeemed := if Redeemable(t, token, now) then s.redeemed + [token] else s.redeemed)
    case PurgeLinks(now) => s.(tables := PurgeExpired(t, now))
  }

  predicate Feasible(s: State, run: seq<Event>)
    decreases |run|
  {
    run == [] || (Enabled(s, run[0]) && Feasible(Next(s, run[0]), run[1..]))
  }

  function After(s: State, run: seq<Event>): State
    requires Feasible(s, run)
    decreases |run|
  {
    if run == [] then s else After(Next(s, run[0]), run[1..])
  }

  const EMPTY := State(Tables(map[], map[], map[]), {}, {}, [])

  predicate Live(tokens: map<Hash, RefreshToken>, h: Hash) { h in tokens && tokens[h].revokedAt.None? }

  predicate FamiliesKept(tokens: map<Hash, RefreshToken>, minted: set<Hash>, families: set<FamilyId>) {
    && tokens.Keys <= minted
    && (forall h | h in tokens :: tokens[h].family in families)
    && (forall g, h | g in tokens && h in tokens && tokens[g].family == tokens[h].family ::
          && tokens[g].user == tokens[h].user
          && (Live(tokens, g) && Live(tokens, h) ==> g == h))
  }

  predicate LinksKept(resets: map<Hash, ResetToken>, minted: set<Hash>, redeemed: seq<Hash>) {
    && resets.Keys <= minted
    && (forall g, h | g in resets && h in resets && resets[g].usedAt.None? && resets[h].usedAt.None?
                      && resets[g].user == resets[h].user :: g == h)
    && (forall r | r in redeemed :: r in minted && (r in resets ==> resets[r].usedAt.Some?))
    && (forall i, j | 0 <= i < j < |redeemed| :: redeemed[i] != redeemed[j])
  }

  predicate Kept(s: State) {
    FamiliesKept(s.tables.refresh, s.minted, s.families) && LinksKept(s.tables.resets, s.minted, s.redeemed)
  }

  // --- how one step changes the refresh tokens ------------------------------------

  /** Some live tokens became revoked; nothing else changed. */
  predicate OnlyRevokes(before: map<Hash, RefreshToken>, after: map<Hash, RefreshToken>) {
    && after.Keys == before.Keys
    && forall h | h in before ::
         after[h] == before[h]
         || (before[h].revokedAt.None? && after[h].revokedAt.Some?
             && after[h] == before[h].(revokedAt := after[h].revokedAt))
  }

  /** A step revokes some tokens and may then add one live token: to a family never used before,
      or to one whose last live token it has just revoked. */
  predicate Evolves(before: map<Hash, RefreshToken>, mid: map<Hash, RefreshToken>, added: Option<(Hash, RefreshToken)>,
                    minted: set<Hash>, families: set<FamilyId>)
  {
    && OnlyRevokes(before, mid)
    && (added.Some? ==>
          var (hash, token) := added.value;
          && hash !in minted && token.revokedAt.None?
          && (token.family in families ==>
                && (exists h | h in before ::
                  Live(before, h) && before[h].family == token.family && before[h].user == token.user)
                && (forall h | h in mid && mid[h].family == token.family :: !Live(mid, h))))
  }

  function With(mid: map<Hash, RefreshToken>, added: Option<(Hash, RefreshToken)>): map<Hash, RefreshToken> {
    if added.None? then mid else mid[added.value.0 := added.value.1]
  }

  lemma RevocationsOnlyRevoke(tokens: map<Hash, RefreshToken>, family: FamilyId, user: UserId, now: int)
    ensures OnlyRevokes(tokens, RevokeFamily(tokens, family, now))
    ensures OnlyRevokes(tokens, RevokeUser(tokens, user, now))
  {}

  lemma RotateEvolves(t: Tables, minted: set<Hash>, families: set<FamilyId>, e: Event)
    returns (mid: map<Hash, RefreshToken>, added: Option<(Hash, RefreshToken)>)
    requires FamiliesKept(t.refresh, minted, families) && e.Refresh? && e.hash !in minted
    ensures Evolves(t.refresh, mid, added, minted, families)
    ensures Rotate(t, e.presented, e.memberships, e.hash, e.now, e.ttl).refresh == With(mid, added)
    ensures added.Some? ==> added.value.0 == e.hash && added.value.1.family in families
  {
    hide RevokeFamily, Gate, OnlyRevokes;
    NothingRevoked(t.refresh);
    mid, added := Rotate(t, e.presented, e.memberships, e.hash, e.now, e.ttl).refresh, None;
    if e.presented in t.refresh {
      var stored := t.refresh[e.presented];
      RevocationsOnlyRevoke(t.refresh, stored.family, "", e.now);
      if RotateDenial(t, e.presented, e.memberships, e.now).None? {
        mid := t.refresh[e.presented := stored.(revokedAt := Some(e.now))];
        added := Some((e.hash, RefreshToken(stored.user, stored.family, e.now + e.ttl, None)));
        assert Live(t.refresh, e.presented);
        OneRevoked(t.refresh, e.presented, e.now);
      }
    }
  }

  lemma OneRevoked(tokens: map<Hash, RefreshToken>, h: Hash, now: int)
    requires Live(tokens, h)
    ensures OnlyRevokes(tokens, tokens[h := tokens[h].(revokedAt := Some(now))])
  {}

  lemma StepEvolves(s: State, e: Event) returns (mid: map<Hash, RefreshToken>, added: Option<(Hash, RefreshToken)>)
    requires Kept(s) && Enabled(s, e)
    ensures Evolves(s.tables.refresh, mid, added, s.minted, s.families)
    ensures Next(s, e).tables.refresh == With(mid, added)
    ensures Next(s, e).minted >= s.minted + (if added.Some? then {added.value.0} else {})
    ensures Next(s, e).families == s.families + (if added.Some? then {added.value.1.family} else {})
  {
    hide RevokeFamily, RevokeUser, Rotate, LinksKept, FamiliesKept, OnlyRevokes, Issue, PurgeExpired;
    var t := s.tables;
    NothingRevoked(t.refresh);
    mid, added := Next(s, e).tables.refresh, None;
    match e
    case SignIn(user, family, hash, now, ttl) =>
      mid, added := t.refresh, Some((hash, RefreshToken(user, family, now + ttl, None)));
    case Refresh(_, _, _, _, _) =>
      mid, added := RotateEvolves(t, s.minted, s.families, e);
      assert added.Some? ==> s.families + {added.value.1.family} == s.families;
    case SignOut(presented, now) =>
      if presented in t.refresh { RevocationsOnlyRevoke(t.refresh, t.refresh[presented].family, "", now); }
    case NewPassword(user, _, now) => RevocationsOnlyRevoke(t.refresh, "", user, now);
    case RedeemLink(token, _, now) =>
      if token in t.resets { RevocationsOnlyRevoke(t.refresh, "", t.resets[token].user, now); }
    case IssueLink(_, _, _, _) => OtherTables(s, e);
    case PurgeLinks(_) => OtherTables(s, e);
    case _ =>
  }

  lemma NothingRevoked(tokens: map<Hash, RefreshToken>)
    ensures OnlyRevokes(tokens, tokens)
  {}

  lemma OtherTables(s: State, e: Event)
    requires Enabled(s, e) && (e.IssueLink? || e.PurgeLinks?)
    ensures Next(s, e).tables.refresh == s.tables.refresh
  {}

  lemma EvolutionKeeps(before: map<Hash, RefreshToken>, mid: map<Hash, RefreshToken>,
                       added: Option<(Hash, RefreshToken)>,
                       minted: set<Hash>, families: set<FamilyId>, moreMinted: set<Hash>, moreFamilies: set<FamilyId>)
    requires FamiliesKept(before, minted, families) && Evolves(before, mid, added, minted, families)
    requires moreMinted >= minted + (if added.Some? then {added.value.0} else {})
    requires moreFamilies == families + (if added.Some? then {added.value.1.family} else {})
    ensures FamiliesKept(With(mid, added), moreMinted, moreFamilies)
  {
    RevokingKeeps(before, mid, minted, families);
  }

  lemma RevokingKeeps(before: map<Hash, RefreshToken>, mid: map<Hash, RefreshToken>,
                      minted: set<Hash>, families: set<FamilyId>)
    requires FamiliesKept(before, minted, families) && OnlyRevokes(before, mid)
    ensures FamiliesKept(mid, minted, families)
  {}

  lemma LinksStep(s: State, e: Event)
    requires Kept(s) && Enabled(s, e)
    ensures LinksKept(Next(s, e).tables.resets, Next(s, e).minted, Next(s, e).redeemed)
  {
    hide RevokeFamily, RevokeUser, Gate, FamiliesKept;
  }

  lemma StepKept(s: State, e: Event)
    requires Kept(s) && Enabled(s, e)
    ensures Kept(Next(s, e))
  {
    hide Next, FamiliesKept, LinksKept, Evolves, With;
    var mid, added := StepEvolves(s, e);
    EvolutionKeeps(s.tables.refresh, mid, added, s.minted, s.families, Next(s, e).minted, Next(s, e).families);
    LinksStep(s, e);
  }

  lemma {:induction false} RunKept(s: State, run: seq<Event>)
    requires Kept(s) && Feasible(s, run)
    ensures Kept(After(s, run))
    decreases |run|
  {
    hide Kept, Next, Enabled;
    if run != [] {
      StepKept(s, run[0]);
      RunKept(Next(s, run[0]), run[1..]);
    }
  }

  /** In every run: a family has one user and at most one unrevoked token; a user has at most one
      unused link; no link is redeemed twice. */
  lemma AccountInvariants(run: seq<Event>)
    requires Feasible(EMPTY, run)
    ensures var s := After(EMPTY, run);
      && (forall g, h | g in s.tables.refresh && h in s.tables.refresh
                        && s.tables.refresh[g].family == s.tables.refresh[h].family ::
            s.tables.refresh[g].user == s.tables.refresh[h].user
            && (Live(s.tables.refresh, g) && Live(s.tables.refresh, h) ==> g == h))
      && (forall g, h | g in s.tables.resets && h in s.tables.resets
                        && s.tables.resets[g].user == s.tables.resets[h].user
                        && s.tables.resets[g].usedAt.None? && s.tables.resets[h].usedAt.None? :: g == h)
      && (forall i, j | 0 <= i < j < |s.redeemed| :: s.redeemed[i] != s.redeemed[j])
  {
    hide After, Feasible;
    assert Kept(EMPTY);
    RunKept(EMPTY, run);
  }

  // --- revocation is permanent ----------------------------------------------------

  predicate DeadFamily(s: State, family: FamilyId) {
    && family in s.families
    && forall h | h in s.tables.refresh && s.tables.refresh[h].family == family :: !Live(s.tables.refresh, h)
  }

  predicate Stays(before: map<Hash, RefreshToken>, after: map<Hash, RefreshToken>, h: Hash) {
    h in before && before[h].revokedAt.Some? ==> h in after && after[h] == before[h]
  }

  lemma StepRevokes(s: State, e: Event, h: Hash, family: FamilyId)
    requires Kept(s) && Enabled(s, e)
    ensures Stays(s.tables.refresh, Next(s, e).tables.refresh, h)
    ensures DeadFamily(s, family) ==> DeadFamily(Next(s, e), family)
  {
    hide Next, LinksKept;
    var mid, added := StepEvolves(s, e);
  }

  /** Once revoked, a token's row never changes again; once dead, a family has no live token ever. */
  lemma {:induction false} RevocationIsPermanent(s: State, run: seq<Event>, h: Hash, family: FamilyId)
    requires Kept(s) && Feasible(s, run)
    ensures Stays(s.tables.refresh, After(s, run).tables.refresh, h)
    ensures DeadFamily(s, family) ==> DeadFamily(After(s, run), family)
    decreases |run|
  {
    hide Kept, DeadFamily, Next, Enabled;
    if run != [] {
      StepKept(s, run[0]);
      StepRevokes(s, run[0], h, family);
      RevocationIsPermanent(Next(s, run[0]), run[1..], h, family);
    }
  }

  /** Presenting a token that was already revoked kills its family for good, in every later state. */
  lemma ReplayEndsFamily(s: State, e: Event, later: seq<Event>)
    requires Kept(s) && e.Refresh? && Enabled(s, e) && Feasible(Next(s, e), later)
    requires e.presented in s.tables.refresh && s.tables.refresh[e.presented].revokedAt.Some?
    ensures DeadFamily(After(Next(s, e), later), s.tables.refresh[e.presented].family)
  {
    hide After, Feasible, Gate;
    StepKept(s, e);
    assert DeadFamily(Next(s, e), s.tables.refresh[e.presented].family);
    RevocationIsPermanent(Next(s, e), later, e.presented, s.tables.refresh[e.presented].family);
  }

  /** Signing out with a known token leaves its family dead in that and every later state, and changes
      no token of another family and no other table; with an unknown one it changes nothing. */
  lemma SignOutEndsFamily(s: State, e: Event, later: seq<Event>)
    requires Kept(s) && e.SignOut? && Enabled(s, e) && Feasible(Next(s, e), later)
    ensures e.presented in s.tables.refresh ==>
      var family := s.tables.refresh[e.presented].family;
      && DeadFamily(Next(s, e), family) && DeadFamily(After(Next(s, e), later), family)
      && Next(s, e).tables.refresh.Keys == s.tables.refresh.Keys
      && forall h | h in s.tables.refresh && s.tables.refresh[h].family != family ::
           Next(s, e).tables.refresh[h] == s.tables.refresh[h]
    ensures Next(s, e).tables.users == s.tables.users && Next(s, e).tables.resets == s.tables.resets
    ensures e.presented !in s.tables.refresh ==> Next(s, e).tables == s.tables
  {
    hide After, Feasible;
    StepKept(s, e);
    if e.presented in s.tables.refresh {
      assert DeadFamily(Next(s, e), s.tables.refresh[e.presented].family);
      RevocationIsPermanent(Next(s, e), later, e.presented, s.tables.refresh[e.presented].family);
    }
  }

  /** A successful rotation leaves exactly the new token alive in the family. */
  lemma RotationHandsOver(s: State, e: Event)
    requires Kept(s) && e.Refresh? && Enabled(s, e)
    requires RotateDenial(s.tables, e.presented, e.memberships, e.now).None?
    ensures var after := Next(s, e).tables.refresh;
      forall h | h in after && after[h].family == s.tables.refresh[e.presented].family ::
        Live(after, h) <==> h == e.hash
  {
    hide Gate, LinksKept;
  }

  /** Redeeming a link, or changing a password, leaves the user no unrevoked refresh token. */
  lemma NewCredentialEndsSessions(s: State, e: Event, user: UserId)
    requires Enabled(s, e)
    requires (e.NewPassword? && e.user == user)
          || (e.RedeemLink? && Redeemable(s.tables, e.token, e.now) && s.tables.resets[e.token].user == user)
    ensures forall h | h in Next(s, e).tables.refresh && Next(s, e).tables.refresh[h].user == user ::
      !Live(Next(s, e).tables.refresh, h)
    ensures forall h | h in s.tables.refresh && s.tables.refresh[h].user != user ::
      h in Next(s, e).tables.refresh && Next(s, e).tables.refresh[h] == s.tables.refresh[h]
    ensures user in Next(s, e).tables.users && Next(s, e).tables.users[user].passwordHash == e.passwordHash
    ensures forall other | other != user && other in s.tables.users ::
      other in Next(s, e).tables.users && Next(s, e).tables.users[other] == s.tables.users[other]
  {}

  /** Deactivating a user revokes nothing: their refresh tokens are turned down for as long as the
      account, or every membership of it, is inactive, and are good again, as they were, once it is
      reactivated. */
  lemma DeactivationSuspendsSessions(s: State, user: UserId)
    requires user in s.tables.users && s.tables.users[user].active
    ensures var off := Next(s, SetActive(user, false));
      && off.tables.refresh == s.tables.refresh
      && (forall h, memberships, now | h in off.tables.refresh && off.tables.refresh[h].user == user ::
            RotateDenial(off.tables, h, memberships, now).Some?)
      && Next(off, SetActive(user, true)).tables == s.tables
    ensures forall h, memberships: seq<Membership>, now |
      memberships != [] && forall m | m in memberships :: !m.active :: RotateDenial(s.tables, h, memberships, now).Some?
  {
    var off := Next(s, SetActive(user, false));
    assert Next(off, SetActive(user, true)).tables.users == s.tables.users;
  }

  // --- that tokens and links work ---------------------------------------------------

  /** A token just issued by signing in can be exchanged until it expires, and the new one is live. */
  lemma FreshTokenRotates(s: State, signIn: Event, refresh: Event)
    requires signIn.SignIn? && Enabled(s, signIn) && s.tables.users[signIn.user].active
    requires refresh.Refresh? && refresh.presented == signIn.hash && Enabled(Next(s, signIn), refresh)
    requires refresh.now < signIn.now + signIn.ttl
    requires refresh.memberships == [] || exists m | m in refresh.memberships :: m.active && m.licensed
    ensures var after := Next(Next(s, signIn), refresh).tables.refresh;
      && refresh.hash in after && Live(after, refresh.hash)
      && after[refresh.hash] == RefreshToken(signIn.user, signIn.family, refresh.now + refresh.ttl, None)
      && !Live(after, signIn.hash)
  {}

  /** A link just issued can be redeemed until it expires: a week for invitations, an hour for resets. */
  lemma FreshLinkRedeems(s: State, issue: Event, redeem: Event)
    requires issue.IssueLink? && Enabled(s, issue) && s.tables.users[issue.user].active
    requires redeem.RedeemLink? && redeem.token == issue.hash
    requires redeem.now < issue.now + (if issue.purpose.Invite? then 7 * 24 else 1) * 3_600_000_000
    ensures var after := Next(Next(s, issue), redeem);
      && after.redeemed == s.redeemed + [issue.hash]
      && after.tables.users
         == s.tables.users[issue.user := s.tables.users[issue.user].(passwordHash := redeem.passwordHash)]
      && (forall h | h in after.tables.refresh && after.tables.refresh[h].user == issue.user ::
            !Live(after.tables.refresh, h))
  {}

  /** Purging in a run is purging the table. */
  lemma PurgeInRun(s: State, now: int)
    ensures Next(s, PurgeLinks(now)) == s.(tables := PurgeExpired(s.tables, now))
  {}

  // --- purging --------------------------------------------------------------------

  /** Purging removes exactly the links that expired more than 30 days ago, so none that could
      still be redeemed at any clock from 30 days before the purge on; other tables stay. */
  lemma PurgeIsSafe(t: Tables, now: int, token: Hash, later: int)
    requires later >= now - PURGE_GRACE
    ensures Redeemable(t, token, later) <==> Redeemable(PurgeExpired(t, now), token, later)
    ensures token in t.resets ==>
      (token !in PurgeExpired(t, now).resets <==> t.resets[token].expiresAt < now - PURGE_GRACE)
  {}
}
