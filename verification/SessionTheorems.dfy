/** What holds of refresh families and access tokens over every run of the session service. */
module SessionTheorems {
  import opened Common
  import opened Sessions

  // ---- The chain, over all runs ----

  ghost predicate TableOk(w: World, now: int) { Chain(w.sessions) && IssuedBy(w.sessions, now) }

  lemma RefreshTable(w: World, token: Id, now: int, cfg: Settings)
    requires Chain(w.sessions) && IssuedBy(w.sessions, now)
    ensures TableOk(Refresh(w, token, now, cfg).0, now)
  {
    var w' := Refresh(w, token, now, cfg).0;
    if Refresh(w, token, now, cfg).1.Some? {
      RotationKeepsChain(w.sessions, token, now, cfg);
    } else {
      assert OnlyRevokes(w.sessions, w'.sessions);
      RevokingKeepsChain(w.sessions, w'.sessions);
    }
  }

  lemma StepTable(w: World, st: Step, cfg: Settings)
    requires TableOk(w, st.now)
    ensures TableOk(Perform(w, st, cfg).0, st.now)
  {
    var t, t' := w.sessions, Perform(w, st, cfg).0.sessions;
    match st.action {
      case DoLogin(user) => LoginKeepsChain(t, NewSession(user, |t|, st.now, cfg));
      case DoRefresh(token, _) => RefreshTable(w, token, st.now, cfg);
      case _ =>
        assert OnlyRevokes(t, t');
        RevokingKeepsChain(t, t');
    }
  }

  /** In every reachable state the sessions of a family form one chain in issue order, and every session
      but the last is revoked. */
  lemma {:induction false} ChainAlways(steps: seq<Step>, n: nat, cfg: Settings)
    requires Timed(steps) && n <= |steps|
    ensures Chain(At(EMPTY, steps, n, cfg).sessions)
    ensures n > 0 ==> IssuedBy(At(EMPTY, steps, n, cfg).sessions, steps[n - 1].now)
  {
    if n > 0 {
      ChainAlways(steps, n - 1, cfg);
      StepTable(At(EMPTY, steps, n - 1, cfg), steps[n - 1], cfg);
    }
  }

  /** The chain, read as a path: following the pointers from any session visits exactly the later
      sessions of its family, so there is no cycle and no branch. */
  lemma ChainIsLinear(t: Table, i: Id, j: Id)
    requires Chain(t) && i < j < |t| && SameFamily(t, i, j)
    ensures t[i].replacedBy.Some? && i < t[i].replacedBy.value <= j && SameFamily(t, i, t[i].replacedBy.value)
    ensures forall k: Id :: k < |t| && t[k].replacedBy == t[i].replacedBy ==> k == i
  {
    var next := t[i].replacedBy.value;
    assert NextInFamily(t, i, next);
    forall k: Id | k < |t| && t[k].replacedBy == t[i].replacedBy ensures k == i {
      assert NextInFamily(t, k, next);
      assert SameFamily(t, k, i) && SameFamily(t, i, k);
    }
  }

  // ---- Each refresh token is redeemed at most once ----

  predicate Revoked(w: World, i: Id) { i < |w.sessions| && w.sessions[i].revokedAt.Some? }

  lemma StepKeepsRevoked(w: World, st: Step, cfg: Settings, i: Id)
    requires Revoked(w, i)
    ensures Revoked(Perform(w, st, cfg).0, i)
  {
  }

  lemma {:induction false} RevokedStays(w: World, steps: seq<Step>, m: nat, n: nat, cfg: Settings, i: Id)
    requires m <= n <= |steps| && Revoked(At(w, steps, m, cfg), i)
    ensures Revoked(At(w, steps, n, cfg), i)
    decreases n
  {
    if m < n {
      RevokedStays(w, steps, m, n - 1, cfg, i);
      StepKeepsRevoked(At(w, steps, n - 1, cfg), steps[n - 1], cfg, i);
    }
  }

  /** Step m redeems the token: the call returns a new session. */
  predicate Redeems(w: World, steps: seq<Step>, m: nat, cfg: Settings, token: Id)
    requires m < |steps|
  {
    && steps[m].action.DoRefresh? && steps[m].action.token == token
    && Perform(At(w, steps, m, cfg), steps[m], cfg).1.Some?
  }

  lemma RedeemedOnce(steps: seq<Step>, m: nat, n: nat, cfg: Settings, token: Id)
    requires m < |steps| && n < |steps|
    requires Redeems(EMPTY, steps, m, cfg, token) && Redeems(EMPTY, steps, n, cfg, token)
    ensures m == n
  {
    if m < n {
      RevokedStays(EMPTY, steps, m + 1, n, cfg, token);
    } else if n < m {
      RevokedStays(EMPTY, steps, n + 1, m, cfg, token);
    }
  }

  /** The step takes the refresh token out of use: it is presented at logout, its session is revoked, its
      user resets the password, or a replay revokes its family for good. */
  predicate Ends(w: World, st: Step, token: Id) {
    && token < |w.sessions|
    && match st.action
       case DoLogout(_, presented) => presented == Some(token)
       case DoRevokeSession(session) => session == token
       case DoResetPassword(user) => w.sessions[token].user == user && w.sessions[token].issuedAt < w.sessions[token].expiresAt
       case DoRefresh(replayed, commits) =>
         && commits && Invalidates(w, st, w.sessions[token].user) && w.sessions[token].issuedAt < w.sessions[token].expiresAt
         && w.sessions[replayed].family == w.sessions[token].family
       case _ => false
  }

  predicate ExpiresAt(w: World, token: Id, at: int) { token < |w.sessions| && w.sessions[token].expiresAt == at }

  lemma StepKeepsExpiry(w: World, st: Step, cfg: Settings, token: Id, at: int)
    requires ExpiresAt(w, token, at)
    ensures ExpiresAt(Perform(w, st, cfg).0, token, at)
  {
  }

  lemma {:induction false} ExpiryStays(w: World, steps: seq<Step>, m: nat, n: nat, cfg: Settings, token: Id, at: int)
    requires m <= n <= |steps| && ExpiresAt(At(w, steps, m, cfg), token, at)
    ensures ExpiresAt(At(w, steps, n, cfg), token, at)
    decreases n
  {
    if m < n {
      ExpiryStays(w, steps, m, n - 1, cfg, token, at);
      StepKeepsExpiry(At(w, steps, n - 1, cfg), steps[n - 1], cfg, token, at);
    }
  }

  lemma EndsRevokes(w: World, st: Step, cfg: Settings, token: Id)
    requires Ends(w, st, token)
    ensures Revoked(Perform(w, st, cfg).0, token) || (st.action.DoLogout? && TokenExpired(w.sessions[token], st.now))
  {
  }

  /** A token that has been taken out of use is never redeemed afterwards. */
  lemma EndedTokenNeverRedeemed(steps: seq<Step>, m: nat, n: nat, cfg: Settings, token: Id)
    requires Timed(steps) && m < n < |steps| && Ends(At(EMPTY, steps, m, cfg), steps[m], token)
    ensures !Redeems(EMPTY, steps, n, cfg, token)
  {
    var w := At(EMPTY, steps, m, cfg);
    EndsRevokes(w, steps[m], cfg, token);
    if Revoked(Perform(w, steps[m], cfg).0, token) {
      RevokedStays(EMPTY, steps, m + 1, n, cfg, token);
    } else {
      ExpiryStays(EMPTY, steps, m, n, cfg, token, w.sessions[token].expiresAt);
      assert steps[m].now / SECOND <= steps[n].now / SECOND;
    }
  }

  // ---- Access tokens and the invalidation marker ----

  /** Claims are whole seconds. */
  datatype AccessToken = AccessToken(user: Id, iat: int, exp: int)

  function IssueAccess(user: Id, now: int, cfg: Settings): AccessToken {
    AccessToken(user, now / SECOND, (now + cfg.accessTtlMinutes * 60 * SECOND) / SECOND)
  }

  predicate Expired(a: AccessToken, now: int) { a.exp < now / SECOND }

  /** The marker is still in Redis and newer than the token. */
  predicate RejectedBy(m: Marker, a: AccessToken, now: int) { now < m.expires && a.iat * SECOND < m.at }

  /** The checks of `get_current_actor`. */
  predicate Accepts(w: World, a: AccessToken, now: int) {
    && !Expired(a, now)
    && !(a.user in w.redis.markers && RejectedBy(w.redis.markers[a.user], a, now))
    && a.user in w.active
  }

  /** The step ends in `invalidate_user_sessions` for this user. */
  predicate Invalidates(w: World, st: Step, user: Id) {
    match st.action
    case DoLogout(u, _) => u == user
    case DoResetPassword(u) => u == user
    case DoRefresh(token, _) =>
      && token < |w.sessions| && w.sessions[token].user == user && w.sessions[token].revokedAt.Some?
      && !TokenExpired(w.sessions[token], st.now) && !Blacklisted(w.redis, Jti(token), st.now)
    case _ => false
  }

  predicate MarkerFrom(w: World, user: Id, at: int) {
    && user in w.redis.markers
    && w.redis.markers[user].at >= at
    && w.redis.markers[user].expires == w.redis.markers[user].at + MARKER_TTL
  }

  lemma StepSetsMarker(w: World, st: Step, cfg: Settings, user: Id)
    requires Invalidates(w, st, user)
    ensures MarkerFrom(Perform(w, st, cfg).0, user, st.now)
  {
  }

  lemma StepKeepsMarker(w: World, st: Step, cfg: Settings, user: Id, at: int)
    requires MarkerFrom(w, user, at) && at <= st.now
    ensures MarkerFrom(Perform(w, st, cfg).0, user, at)
  {
  }

  lemma {:induction false} MarkerStays(steps: seq<Step>, m: nat, n: nat, cfg: Settings, user: Id)
    requires Timed(steps) && m < n <= |steps| && Invalidates(At(EMPTY, steps, m, cfg), steps[m], user)
    ensures MarkerFrom(At(EMPTY, steps, n, cfg), user, steps[m].now)
    decreases n
  {
    if n == m + 1 {
      StepSetsMarker(At(EMPTY, steps, m, cfg), steps[m], cfg, user);
    } else {
      MarkerStays(steps, m, n - 1, cfg, user);
      StepKeepsMarker(At(EMPTY, steps, n - 1, cfg), steps[n - 1], cfg, user, steps[m].now);
    }
  }

  const WEEK_MINUTES := 7 * 24 * 60

  /** A token issued strictly before a marker is rejected by it, or has expired, at every moment from the
      marker on, as long as access tokens live less than the marker does. */
  lemma MarkerOutlivesToken(m: Marker, user: Id, issuedAt: int, now: int, cfg: Settings)
    requires m.expires == m.at + MARKER_TTL && 0 <= issuedAt < m.at
    requires cfg.accessTtlMinutes < WEEK_MINUTES
    ensures var a := IssueAccess(user, issuedAt, cfg); RejectedBy(m, a, now) || Expired(a, now)
  {
    var ttl := cfg.accessTtlMinutes * 60;
    assert (issuedAt + ttl * SECOND) / SECOND == issuedAt / SECOND + ttl;
  }

  /** Invalidation is permanent: a token issued strictly before a logout, a password reset or a family
      revocation is refused in every later state. */
  lemma InvalidationIsPermanent(steps: seq<Step>, m: nat, n: nat, cfg: Settings, user: Id, issuedAt: int, now: int)
    requires Timed(steps) && m < n <= |steps| && Invalidates(At(EMPTY, steps, m, cfg), steps[m], user)
    requires 0 <= issuedAt < steps[m].now && cfg.accessTtlMinutes < WEEK_MINUTES
    ensures !Accepts(At(EMPTY, steps, n, cfg), IssueAccess(user, issuedAt, cfg), now)
  {
    MarkerStays(steps, m, n, cfg, user);
    MarkerOutlivesToken(At(EMPTY, steps, n, cfg).redis.markers[user], user, issuedAt, now, cfg);
  }

  /** At `now`, a marker set at `at` keeps out a token issued at `issuedAt`. */
  predicate KeptOut(cfg: Settings, at: int, issuedAt: int, now: int) {
    var a := IssueAccess(0, issuedAt, cfg);
    RejectedBy(Marker(at, at + MARKER_TTL), a, now) || Expired(a, now)
  }

  /** The setting decides: with access tokens that live a week or longer, a token issued just before the
      marker is accepted again the moment the marker disappears. */
  lemma PermanentExactlyWhen(cfg: Settings)
    ensures cfg.accessTtlMinutes < WEEK_MINUTES <==>
      forall at, issuedAt, now :: 0 <= issuedAt < at ==> KeptOut(cfg, at, issuedAt, now)
  {
    if cfg.accessTtlMinutes < WEEK_MINUTES {
      forall at, issuedAt, now | 0 <= issuedAt < at ensures KeptOut(cfg, at, issuedAt, now) {
        MarkerOutlivesToken(Marker(at, at + MARKER_TTL), 0, issuedAt, now, cfg);
      }
    } else {
      var now := 1 + MARKER_TTL;
      assert IssueAccess(0, 0, cfg).exp == cfg.accessTtlMinutes * 60 >= now / SECOND;
      assert !KeptOut(cfg, 1, 0, now);
    }
  }

  /** A live marker rejects exactly the tokens whose whole second began before it, so it also rejects a
      token issued after it within the same second. */
  lemma MarkerRejectsWholeSeconds(m: Marker, user: Id, issuedAt: int, now: int, cfg: Settings)
    requires 0 <= issuedAt && now < m.expires
    ensures RejectedBy(m, IssueAccess(user, issuedAt, cfg), now) <==> issuedAt - issuedAt % SECOND < m.at
    ensures m.at <= issuedAt ==>
      (RejectedBy(m, IssueAccess(user, issuedAt, cfg), now) <==> m.at / SECOND == issuedAt / SECOND && m.at % SECOND != 0)
  {
  }

  // ---- Replaying a redeemed token ----

  predicate FixedLifetime(t: Table, cfg: Settings) {
    forall i: Id :: i < |t| ==> t[i].expiresAt == t[i].issuedAt + cfg.refreshTtlDays * DAY
  }

  lemma {:induction false} LifetimesFixed(steps: seq<Step>, n: nat, cfg: Settings)
    requires n <= |steps|
    ensures FixedLifetime(At(EMPTY, steps, n, cfg).sessions, cfg)
  {
    if n > 0 {
      LifetimesFixed(steps, n - 1, cfg);
    }
  }

  /** The token's row is there and its id is blacklisted at least until the given moment. */
  predicate Burned(w: World, token: Id, expiresAt: int, until: int) {
    && token < |w.sessions| && w.sessions[token].expiresAt == expiresAt
    && Jti(token) in w.redis.blacklist && until <= w.redis.blacklist[Jti(token)]
  }

  lemma StepKeepsBurned(w: World, st: Step, cfg: Settings, token: Id, expiresAt: int, until: int)
    requires Burned(w, token, expiresAt, until) && until <= st.now + cfg.refreshTtlDays * DAY
    ensures Burned(Perform(w, st, cfg).0, token, expiresAt, until)
  {
    if st.action.DoResetPassword? {
      BlacklistActiveEntries(w.redis.blacklist, w.sessions, |w.sessions|, st.action.user, st.now + cfg.refreshTtlDays * DAY);
    }
  }

  lemma {:induction false} StaysBurned(steps: seq<Step>, m: nat, n: nat, cfg: Settings, token: Id)
    requires Timed(steps) && m < n <= |steps| && Redeems(EMPTY, steps, m, cfg, token)
    ensures Burned(At(EMPTY, steps, n, cfg), token, At(EMPTY, steps, m, cfg).sessions[token].expiresAt,
              steps[m].now + cfg.refreshTtlDays * DAY)
    decreases n
  {
    if m + 1 < n {
      StaysBurned(steps, m, n - 1, cfg, token);
      StepKeepsBurned(At(EMPTY, steps, n - 1, cfg), steps[n - 1], cfg, token,
        At(EMPTY, steps, m, cfg).sessions[token].expiresAt, steps[m].now + cfg.refreshTtlDays * DAY);
    }
  }

  lemma BlacklistedOrExpired(issuedAt: int, redeemedAt: int, now: int, cfg: Settings)
    ensures var ttl := cfg.refreshTtlDays * DAY;
            issuedAt / SECOND < redeemedAt / SECOND && redeemedAt + ttl <= now ==> (issuedAt + ttl) / SECOND < now / SECOND
    ensures var ttl := cfg.refreshTtlDays * DAY;
            issuedAt / SECOND == redeemedAt / SECOND ==> (issuedAt + ttl) / SECOND == (redeemedAt + ttl) / SECOND
  {
    var k := cfg.refreshTtlDays * 86_400;
    assert cfg.refreshTtlDays * DAY == k * SECOND;
    assert (issuedAt + k * SECOND) / SECOND == issuedAt / SECOND + k;
    assert (redeemedAt + k * SECOND) / SECOND == redeemedAt / SECOND + k;
  }

  /** Presenting a redeemed token again never revokes its family: the blacklist answers first, and by the
      time its entry is gone the token has expired. It holds when the token was redeemed in a later second
      than the one it was issued in. */
  lemma ReplayIsInert(steps: seq<Step>, m: nat, n: nat, cfg: Settings, token: Id)
    requires Timed(steps) && m < n < |steps| && Redeems(EMPTY, steps, m, cfg, token)
    requires At(EMPTY, steps, m, cfg).sessions[token].issuedAt / SECOND < steps[m].now / SECOND
    requires steps[n].action.DoRefresh? && steps[n].action.token == token
    ensures Perform(At(EMPTY, steps, n, cfg), steps[n], cfg) == (At(EMPTY, steps, n, cfg), None)
  {
    LifetimesFixed(steps, m, cfg);
    StaysBurned(steps, m, n, cfg, token);
    BlacklistedOrExpired(At(EMPTY, steps, m, cfg).sessions[token].issuedAt, steps[m].now, steps[n].now, cfg);
  }

  /** That condition is exact: right after a redemption, no later replay revokes the family if and only if
      the token was redeemed in a later second than the one it was issued in. */
  lemma ReplayInertExactlyWhen(w: World, token: Id, at: int, cfg: Settings)
    requires FixedLifetime(w.sessions, cfg) && IssuedBy(w.sessions, at) && Refresh(w, token, at, cfg).1.Some?
    ensures w.sessions[token].issuedAt / SECOND < at / SECOND <==>
            forall now :: at <= now ==>
              !Invalidates(Refresh(w, token, at, cfg).0, Step(DoRefresh(token, true), now), w.sessions[token].user)
  {
    var w', s, ttl := Refresh(w, token, at, cfg).0, w.sessions[token], cfg.refreshTtlDays * DAY;
    if s.issuedAt / SECOND < at / SECOND {
      forall now | at <= now ensures !Invalidates(w', Step(DoRefresh(token, true), now), s.user) {
        BlacklistedOrExpired(s.issuedAt, at, now, cfg);
      }
    } else {
      BlacklistedOrExpired(s.issuedAt, at, at + ttl, cfg);
      assert Invalidates(w', Step(DoRefresh(token, true), at + ttl), s.user);
    }
  }
}
