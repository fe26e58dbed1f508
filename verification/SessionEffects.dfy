/** What each session call does to the table and to Redis, row by row, and when it succeeds. */
module SessionEffects {
  import opened Common
  import opened Sessions
  import opened SessionTheorems

  const MICROS_A_DAY := 86_400_000_000

  /** Every row but i is as it was. */
  ghost predicate OthersSame(t: Table, t': Table, i: Id) {
    |t| <= |t'| && forall k: Id :: k < |t| && k != i ==> t'[k] == t[k]
  }

  /** The row is revoked at this time if it was not before, and is otherwise as it was. */
  predicate Ended(s: Session, s': Session, now: int) {
    && s'.user == s.user && s'.family == s.family && s'.issuedAt == s.issuedAt && s'.expiresAt == s.expiresAt
    && s'.replacedBy == s.replacedBy && s'.revokedAt == (if s.revokedAt.None? then Some(now) else s.revokedAt)
  }

  /** A new, unrevoked session at the end of the table. */
  predicate Issued(t: Table, t': Table, user: Id, family: Id, now: int, cfg: Settings) {
    && |t'| == |t| + 1
    && t'[|t|].user == user && t'[|t|].family == family
    && t'[|t|].issuedAt == now && t'[|t|].expiresAt == now + cfg.refreshTtlDays * MICROS_A_DAY
    && t'[|t|].revokedAt.None? && t'[|t|].replacedBy.None?
  }

  /** Only this user's marker has changed: it says now and lasts a week. */
  ghost predicate Marked(r: Redis, r': Redis, user: Id, now: int) {
    && user in r'.markers && r'.markers[user].at == now && r'.markers[user].expires == now + 7 * MICROS_A_DAY
    && forall other :: other != user ==>
         (other in r'.markers <==> other in r.markers) && (other in r.markers ==> r'.markers[other] == r.markers[other])
  }

  /** Only this key has been blacklisted, for the lifetime of a refresh token. */
  ghost predicate Listed(r: Redis, r': Redis, key: BlackKey, now: int, cfg: Settings) {
    && key in r'.blacklist && r'.blacklist[key] == now + cfg.refreshTtlDays * MICROS_A_DAY
    && forall other :: other != key ==>
         (other in r'.blacklist <==> other in r.blacklist) && (other in r.blacklist ==> r'.blacklist[other] == r.blacklist[other])
  }

  lemma LoginIssues(w: World, user: Id, now: int, cfg: Settings)
    ensures var w' := Login(w, user, now, cfg);
            && Issued(w.sessions, w'.sessions, user, |w.sessions|, now, cfg) && w'.sessions[..|w.sessions|] == w.sessions
            && w'.redis == w.redis && w'.active == w.active
  {
  }

  // ---- Refresh ----

  /** The token is known and decodes, its id is not blacklisted, its row is neither revoked nor expired, and
      its user is active. */
  predicate Redeemable(w: World, token: Id, now: int) {
    && token < |w.sessions|
    && now / 1_000_000 <= w.sessions[token].expiresAt / 1_000_000
    && (Jti(token) in w.redis.blacklist ==> w.redis.blacklist[Jti(token)] <= now)
    && w.sessions[token].revokedAt.None? && now <= w.sessions[token].expiresAt
    && w.sessions[token].user in w.active
  }

  /** A refresh issues a session exactly for a redeemable token: one of the same user and family, which the
      token's row points at. The row is revoked and the token blacklisted; nothing else changes. */
  lemma RefreshIssuesExactlyWhen(w: World, token: Id, now: int, cfg: Settings)
    ensures Refresh(w, token, now, cfg).1.Some? <==> Redeemable(w, token, now)
    ensures Redeemable(w, token, now) ==>
      var (w', issued) := Refresh(w, token, now, cfg);
      var s := w.sessions[token];
      && issued == Some(|w.sessions|) && Issued(w.sessions, w'.sessions, s.user, s.family, now, cfg)
      && OthersSame(w.sessions, w'.sessions, token)
      && Ended(s, w'.sessions[token].(replacedBy := s.replacedBy), now) && w'.sessions[token].replacedBy == issued
      && Listed(w.redis, w'.redis, Jti(token), now, cfg) && w'.redis.markers == w.redis.markers && w'.active == w.active
  {
  }

  /** What a refused refresh leaves behind: an inactive user's token is used up, a revoked token that the
      blacklist no longer covers costs its family, and any other refusal changes nothing. */
  lemma RefusalLeaves(w: World, token: Id, now: int, cfg: Settings)
    requires !Redeemable(w, token, now)
    ensures var w' := Refresh(w, token, now, cfg).0;
      if token >= |w.sessions| || now / 1_000_000 > w.sessions[token].expiresAt / 1_000_000
         || (Jti(token) in w.redis.blacklist && now < w.redis.blacklist[Jti(token)]) then w' == w
      else
        var s := w.sessions[token];
        if s.revokedAt.Some? then FamilyEnded(w, w', s.user, s.family, now)
        else if s.expiresAt < now then w' == w
        else
          && |w'.sessions| == |w.sessions| && OthersSame(w.sessions, w'.sessions, token) && Ended(s, w'.sessions[token], now)
          && Listed(w.redis, w'.redis, Jti(token), now, cfg) && w'.redis.markers == w.redis.markers && w'.active == w.active
  {
  }

  /** Exactly the user's unrevoked sessions of the family are ended, and the user is marked. A session that
      was issued already expired is not among the active ones and stays. */
  ghost predicate FamilyEnded(w: World, w': World, user: Id, family: Id, now: int) {
    && |w'.sessions| == |w.sessions|
    && (forall i: Id :: i < |w.sessions| ==>
          if w.sessions[i].user == user && w.sessions[i].family == family && w.sessions[i].issuedAt < w.sessions[i].expiresAt
          then Ended(w.sessions[i], w'.sessions[i], now) else w'.sessions[i] == w.sessions[i])
    && Marked(w.redis, w'.redis, user, now) && w'.redis.blacklist == w.redis.blacklist && w'.active == w.active
  }

  lemma RevokeFamilyEnds(w: World, user: Id, family: Id, now: int)
    ensures FamilyEnded(w, RevokeFamily(w, user, family, now), user, family, now)
  {
  }

  // ---- The other calls ----

  /** A password reset ends exactly the user's unrevoked sessions, blacklists exactly their ids, and marks
      the user; other users keep their rows, entries and markers. */
  lemma RevokeAllEnds(w: World, user: Id, now: int, cfg: Settings)
    ensures var w' := RevokeAll(w, user, now, cfg);
      && |w'.sessions| == |w.sessions|
      && (forall i: Id :: i < |w.sessions| ==>
            if w.sessions[i].user == user && w.sessions[i].issuedAt < w.sessions[i].expiresAt
            then Ended(w.sessions[i], w'.sessions[i], now) else w'.sessions[i] == w.sessions[i])
      && (forall i: Id :: i < |w.sessions| && w.sessions[i].user == user && w.sessions[i].revokedAt.None?
                          && w.sessions[i].issuedAt < w.sessions[i].expiresAt ==>
            SessionKey(i) in w'.redis.blacklist
            && w'.redis.blacklist[SessionKey(i)] == now + cfg.refreshTtlDays * MICROS_A_DAY)
      && (forall key: BlackKey :: !(key.SessionKey? && key.session < |w.sessions| && w.sessions[key.session].user == user
                                    && w.sessions[key.session].revokedAt.None?) ==>
            (key in w'.redis.blacklist <==> key in w.redis.blacklist)
            && (key in w.redis.blacklist ==> w'.redis.blacklist[key] == w.redis.blacklist[key]))
      && Marked(w.redis, w'.redis, user, now) && w'.active == w.active
  {
    BlacklistActiveEntries(w.redis.blacklist, w.sessions, |w.sessions|, user, now + cfg.refreshTtlDays * DAY);
  }

  /** A logout always marks the user; a presented token that decodes is blacklisted and its row ended. */
  lemma LogoutEnds(w: World, user: Id, presented: Option<Id>, now: int, cfg: Settings)
    ensures var w' := Logout(w, user, presented, now, cfg);
      && Marked(w.redis, w'.redis, user, now) && w'.active == w.active && |w'.sessions| == |w.sessions|
      && if presented.None? || presented.value >= |w.sessions|
            || now / 1_000_000 > w.sessions[presented.value].expiresAt / 1_000_000
         then w'.sessions == w.sessions && w'.redis.blacklist == w.redis.blacklist
         else
           var token := presented.value;
           && OthersSame(w.sessions, w'.sessions, token) && Ended(w.sessions[token], w'.sessions[token], now)
           && Listed(w.redis, w'.redis, Jti(token), now, cfg)
  {
  }

  /** Revoking a session answers whether there is one; it sets the row's revocation time and blacklists the
      session's id, and leaves every other row, entry and marker alone. */
  lemma RevokeSessionEnds(w: World, session: Id, now: int, cfg: Settings)
    ensures RevokeSession(w, session, now, cfg).1 <==> session < |w.sessions|
    ensures var w' := RevokeSession(w, session, now, cfg).0;
      && |w'.sessions| == |w.sessions| && w'.redis.markers == w.redis.markers && w'.active == w.active
      && (session >= |w.sessions| ==> w' == w)
      && (session < |w.sessions| ==>
            && OthersSame(w.sessions, w'.sessions, session)
            && w'.sessions[session].revokedAt == Some(now)
            && Ended(w.sessions[session].(revokedAt := None), w'.sessions[session], now)
            && Listed(w.redis, w'.redis, SessionKey(session), now, cfg))
  {
  }

  // ---- Access tokens ----

  /** `get_current_actor` lets a token in exactly while its whole-second expiry has not passed, its user is
      active, and no live marker of the user is later than the second in which it was issued. */
  lemma AcceptsExactlyWhen(w: World, user: Id, issuedAt: int, now: int, cfg: Settings)
    ensures Accepts(w, IssueAccess(user, issuedAt, cfg), now) <==>
      && now / 1_000_000 <= (issuedAt + cfg.accessTtlMinutes * 60_000_000) / 1_000_000
      && user in w.active
      && !(user in w.redis.markers && now < w.redis.markers[user].expires
           && issuedAt / 1_000_000 * 1_000_000 < w.redis.markers[user].at)
  {
    assert cfg.accessTtlMinutes * 60 * SECOND == cfg.accessTtlMinutes * 60_000_000;
  }
}
