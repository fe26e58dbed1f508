/** The session service as it updates its tables in place (backend/app/auth/service.py); every method is
    proved against the function of the same name in Sessions. */
module AuthService {
  import opened Common
  import S = Sessions
  import E = SessionEffects

  class Service {
    var sessions: S.Table
    var active: set<Id>
    var redis: S.Redis
    const cfg: S.Settings

    constructor (cfg: S.Settings)
      ensures this.cfg == cfg && World() == S.EMPTY
    {
      this.cfg := cfg;
      sessions, active, redis := [], {}, S.Redis(map[], map[]);
    }

    function World(): S.World
      reads this
    {
      S.World(sessions, active, redis)
    }

    method BlacklistToken(key: S.BlackKey, ttl: int, now: int)
      modifies this`redis
      ensures redis == S.Blacklist(old(redis), key, ttl, now)
    {
      redis := redis.(blacklist := redis.blacklist[key := now + ttl]);
    }

    method InvalidateUserSessions(user: Id, now: int)
      modifies this`redis
      ensures redis == S.InvalidateUser(old(redis), user, now)
    {
      redis := redis.(markers := redis.markers[user := S.Marker(now, now + 7 * 86_400 * S.SECOND)]);
    }

    method IssueSession(user: Id, family: Option<Id>, now: int) returns (id: Id)
      modifies this`sessions
      ensures id == |old(sessions)|
      ensures sessions == old(sessions) + [S.NewSession(user, if family.Some? then family.value else id, now, cfg)]
    {
      id := |sessions|;
      var fam := if family.Some? then family.value else id;
      sessions := sessions + [S.Session(user, fam, now, now + cfg.refreshTtlDays * S.DAY, None, None)];
    }

    method Login(user: Id, now: int) returns (id: Id)
      modifies this
      ensures World() == S.Login(old(World()), user, now, cfg) && id == |old(sessions)|
    {
      id := IssueSession(user, None, now);
    }

    /** `_revoke_family`: a loop over the user's active sessions. */
    method RevokeFamily(user: Id, family: Id, now: int)
      modifies this
      ensures World() == S.RevokeFamily(old(World()), user, family, now)
    {
      ghost var before := sessions;
      var i := 0;
      while i < |sessions|
        invariant 0 <= i <= |sessions| == |before|
        invariant active == old(active) && redis == old(redis)
        invariant forall k :: i <= k < |sessions| ==> sessions[k] == before[k]
        invariant forall k :: 0 <= k < i ==>
          sessions[k] == S.RevokeIf(before[k], before[k].user == user && before[k].family == family, now)
      {
        var s := sessions[i];
        if s.user == user && S.ActiveSession(s) {
          if s.family == family && s.revokedAt.None? {
            sessions := sessions[i := s.(revokedAt := Some(now))];
          }
        }
        i := i + 1;
      }
      InvalidateUserSessions(user, now);
      assert sessions == S.RevokeFamily(old(World()), user, family, now).sessions;
    }

    /** `refresh` for a token the service has issued, or for any other (`None`-like) position. */
    method Refresh(token: Id, now: int) returns (issued: Option<Id>)
      modifies this
      ensures (World(), issued) == S.Refresh(old(World()), token, now, cfg)
      ensures issued.Some? <==> E.Redeemable(old(World()), token, now)
    {
      E.RefreshIssuesExactlyWhen(World(), token, now, cfg);
      if token >= |sessions| || S.TokenExpired(sessions[token], now) {
        return None;
      }
      if S.Jti(token) in redis.blacklist && now < redis.blacklist[S.Jti(token)] {
        return None;
      }
      var s := sessions[token];
      if s.revokedAt.Some? {
        RevokeFamily(s.user, s.family, now);
        return None;
      }
      if s.expiresAt < now {
        return None;
      }
      sessions := sessions[token := s.(revokedAt := Some(now))];
      BlacklistToken(S.Jti(token), cfg.refreshTtlDays * S.DAY, now);
      if s.user !in active {
        return None;
      }
      var n := IssueSession(s.user, Some(s.family), now);
      sessions := sessions[token := sessions[token].(replacedBy := Some(n))];
      assert sessions == S.Refresh(old(World()), token, now, cfg).0.sessions;
      issued := Some(n);
    }

    method Logout(user: Id, token: Option<Id>, now: int)
      modifies this
      ensures World() == S.Logout(old(World()), user, token, now, cfg)
    {
      if token.Some? && token.value < |sessions| && !S.TokenExpired(sessions[token.value], now) {
        var t := token.value;
        BlacklistToken(S.Jti(t), cfg.refreshTtlDays * S.DAY, now);
        if sessions[t].revokedAt.None? {
          sessions := sessions[t := sessions[t].(revokedAt := Some(now))];
        } else {
          assert sessions == sessions[t := sessions[t]];
        }
      }
      InvalidateUserSessions(user, now);
    }

    method RevokeSession(session: Id, now: int) returns (ok: bool)
      modifies this
      ensures (World(), ok) == S.RevokeSession(old(World()), session, now, cfg)
    {
      if session >= |sessions| {
        return false;
      }
      sessions := sessions[session := sessions[session].(revokedAt := Some(now))];
      BlacklistToken(S.SessionKey(session), cfg.refreshTtlDays * S.DAY, now);
      ok := true;
    }

    /** `revoke_user_all_sessions`; the result is the number of sessions it revoked. */
    method RevokeUserAllSessions(user: Id, now: int) returns (count: nat)
      modifies this
      ensures World() == S.RevokeAll(old(World()), user, now, cfg)
      ensures count == S.CountActive(old(sessions), |old(sessions)|, user)
    {
      ghost var before, blacklist := sessions, redis.blacklist;
      var ttl := cfg.refreshTtlDays * S.DAY;
      var i := 0;
      count := 0;
      while i < |sessions|
        invariant 0 <= i <= |sessions| == |before|
        invariant active == old(active) && redis.markers == old(redis).markers
        invariant forall k :: i <= k < |sessions| ==> sessions[k] == before[k]
        invariant forall k :: 0 <= k < i ==> sessions[k] == S.RevokeIf(before[k], before[k].user == user, now)
        invariant redis.blacklist == S.BlacklistActive(blacklist, before, i, user, now + ttl)
        invariant count == S.CountActive(before, i, user)
      {
        var s := sessions[i];
        if s.user == user && S.ActiveSession(s) {
          sessions := sessions[i := s.(revokedAt := Some(now))];
          BlacklistToken(S.SessionKey(i), ttl, now);
          count := count + 1;
        }
        i := i + 1;
      }
      InvalidateUserSessions(user, now);
      assert sessions == S.RevokeAll(old(World()), user, now, cfg).sessions;
    }
  }
}
