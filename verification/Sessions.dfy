/** Refresh-token families and session invalidation (backend/app/auth/service.py,
    backend/app/auth/dependencies.py, backend/app/common/security.py). Times are in microseconds. */
module Sessions {
  import opened Common

  const SECOND := 1_000_000
  const DAY := 86_400 * SECOND
  const MARKER_TTL := 7 * DAY

  /** A row of `refresh_sessions`. Its position in the table is its identifier, and also stands for the
      refresh token issued with it: token hashes and token ids are unique. */
  datatype Session = Session(
    user: Id,
    family: Id,
    issuedAt: int,
    expiresAt: int,
    revokedAt: Option<int>,
    replacedBy: Option<Id>)

  type Table = seq<Session>

  /** Keys of the Redis blacklist. Revoking by session writes the session id, not the token id. */
  datatype BlackKey = Jti(token: Id) | SessionKey(session: Id)

  datatype Marker = Marker(at: int, expires: int)

  datatype Redis = Redis(blacklist: map<BlackKey, int>, markers: map<Id, Marker>)

  datatype World = World(sessions: Table, active: set<Id>, redis: Redis)

  datatype Settings = Settings(refreshTtlDays: nat, accessTtlMinutes: nat)

  // ---- Redis ----

  predicate Blacklisted(r: Redis, key: BlackKey, now: int) { key in r.blacklist && now < r.blacklist[key] }

  function Blacklist(r: Redis, key: BlackKey, ttl: int, now: int): Redis {
    r.(blacklist := r.blacklist[key := now + ttl])
  }

  function InvalidateUser(r: Redis, user: Id, now: int): Redis {
    r.(markers := r.markers[user := Marker(now, now + MARKER_TTL)])
  }

  // ---- The service calls, as functions of the state ----

  function NewSession(user: Id, family: Id, now: int, cfg: Settings): Session {
    Session(user, family, now, now + cfg.refreshTtlDays * DAY, None, None)
  }

  /** Login or registration: a session in a family of its own. */
  function Login(w: World, user: Id, now: int, cfg: Settings): World {
    w.(sessions := w.sessions + [NewSession(user, |w.sessions|, now, cfg)])
  }

  predicate ActiveSession(s: Session) { s.revokedAt.None? && s.expiresAt > s.issuedAt }

  function RevokeIf(s: Session, hit: bool, now: int): Session {
    if hit && ActiveSession(s) then s.(revokedAt := Some(now)) else s
  }

  function RevokeFamily(w: World, user: Id, family: Id, now: int): World {
    var sessions := seq(|w.sessions|, i requires 0 <= i < |w.sessions| =>
      RevokeIf(w.sessions[i], w.sessions[i].user == user && w.sessions[i].family == family, now));
    w.(sessions := sessions, redis := InvalidateUser(w.redis, user, now))
  }

  /** `decode_refresh_token` refuses a token whose whole-second expiry has passed. */
  predicate TokenExpired(s: Session, now: int) { s.expiresAt / SECOND < now / SECOND }

  /** `refresh`: the new state and the new session, if one is issued. */
  function Refresh(w: World, token: Id, now: int, cfg: Settings): (World, Option<Id>) {
    if token >= |w.sessions| || TokenExpired(w.sessions[token], now) || Blacklisted(w.redis, Jti(token), now) then (w, None)
    else
      var s := w.sessions[token];
      if s.revokedAt.Some? then (RevokeFamily(w, s.user, s.family, now), None)
      else if s.expiresAt < now then (w, None)
      else
        var redis := Blacklist(w.redis, Jti(token), cfg.refreshTtlDays * DAY, now);
        var revoked := s.(revokedAt := Some(now));
        if s.user !in w.active then (w.(sessions := w.sessions[token := revoked], redis := redis), None)
        else
          var n := |w.sessions|;
          var sessions := w.sessions[token := revoked.(replacedBy := Some(n))] + [NewSession(s.user, s.family, now, cfg)];
          (w.(sessions := sessions, redis := redis), Some(n))
  }

  /** The refresh request: a refused call answers with an error, which rolls the table back but not Redis. */
  function RefreshRequest(w: World, token: Id, now: int, cfg: Settings): (World, Option<Id>) {
    var (w', issued) := Refresh(w, token, now, cfg);
    if issued.None? then (w'.(sessions := w.sessions), None) else (w', issued)
  }

  function Logout(w: World, user: Id, token: Option<Id>, now: int, cfg: Settings): World {
    var w1 :=
      if token.None? || token.value >= |w.sessions| || TokenExpired(w.sessions[token.value], now) then w
      else
        var s := w.sessions[token.value];
        w.(redis := Blacklist(w.redis, Jti(token.value), cfg.refreshTtlDays * DAY, now),
           sessions := w.sessions[token.value := if s.revokedAt.None? then s.(revokedAt := Some(now)) else s]);
    w1.(redis := InvalidateUser(w1.redis, user, now))
  }

  function RevokeSession(w: World, session: Id, now: int, cfg: Settings): (World, bool) {
    if session >= |w.sessions| then (w, false)
    else
      (w.(sessions := w.sessions[session := w.sessions[session].(revokedAt := Some(now))],
          redis := Blacklist(w.redis, SessionKey(session), cfg.refreshTtlDays * DAY, now)), true)
  }

  /** The blacklist once the user's active sessions among the first n have been entered. */
  function BlacklistActive(blacklist: map<BlackKey, int>, t: Table, n: nat, user: Id, until: int): map<BlackKey, int>
    requires n <= |t|
  {
    if n == 0 then blacklist
    else
      var b := BlacklistActive(blacklist, t, n - 1, user, until);
      if t[n - 1].user == user && ActiveSession(t[n - 1]) then b[SessionKey(n - 1) := until] else b
  }

  /** Exactly the keys of the user's active sessions are entered; every other key is as it was. */
  lemma {:induction false} BlacklistActiveEntries(blacklist: map<BlackKey, int>, t: Table, n: nat, user: Id, until: int)
    requires n <= |t|
    ensures var b := BlacklistActive(blacklist, t, n, user, until);
            forall k: BlackKey ::
              if k.SessionKey? && k.session < n && t[k.session].user == user && ActiveSession(t[k.session])
              then k in b && b[k] == until
              else (k in b <==> k in blacklist) && (k in b ==> b[k] == blacklist[k])
  {
    if n > 0 {
      BlacklistActiveEntries(blacklist, t, n - 1, user, until);
    }
  }

  function CountActive(t: Table, n: nat, user: Id): nat
    requires n <= |t|
  {
    if n == 0 then 0
    else CountActive(t, n - 1, user) + if t[n - 1].user == user && ActiveSession(t[n - 1]) then 1 else 0
  }

  /** `revoke_user_all_sessions`, the effect of a password reset. */
  function RevokeAll(w: World, user: Id, now: int, cfg: Settings): World {
    var sessions := seq(|w.sessions|, i requires 0 <= i < |w.sessions| => RevokeIf(w.sessions[i], w.sessions[i].user == user, now));
    var blacklist := BlacklistActive(w.redis.blacklist, w.sessions, |w.sessions|, user, now + cfg.refreshTtlDays * DAY);
    w.(sessions := sessions, redis := InvalidateUser(w.redis.(blacklist := blacklist), user, now))
  }

  // ---- Runs ----

  datatype Action =
    | DoLogin(user: Id)
    | DoRefresh(token: Id, commits: bool)  // commits: what becomes of the table when the call is refused
    | DoLogout(user: Id, presented: Option<Id>)
    | DoRevokeSession(session: Id)
    | DoResetPassword(user: Id)
    | DoSetActive(user: Id, active: bool)

  datatype Step = Step(action: Action, now: int)

  function Perform(w: World, st: Step, cfg: Settings): (World, Option<Id>) {
    var now := st.now;
    match st.action
    case DoLogin(user) => (Login(w, user, now, cfg), Some(|w.sessions|))
    case DoRefresh(token, commits) => if commits then Refresh(w, token, now, cfg) else RefreshRequest(w, token, now, cfg)
    case DoLogout(user, token) => (Logout(w, user, token, now, cfg), None)
    case DoRevokeSession(session) => (RevokeSession(w, session, now, cfg).0, None)
    case DoResetPassword(user) => (RevokeAll(w, user, now, cfg), None)
    case DoSetActive(user, active) => (w.(active := if active then w.active + {user} else w.active - {user}), None)
  }

  /** The state before step n. */
  function At(w: World, steps: seq<Step>, n: nat, cfg: Settings): World
    requires n <= |steps|
  {
    if n == 0 then w else Perform(At(w, steps, n - 1, cfg), steps[n - 1], cfg).0
  }

  ghost predicate Timed(steps: seq<Step>) {
    && (forall i, j :: 0 <= i < j < |steps| ==> steps[i].now <= steps[j].now)
    && (forall i :: 0 <= i < |steps| ==> 0 <= steps[i].now)
  }

  const EMPTY := World([], {}, Redis(map[], map[]))

  // ---- The rotation chain ----

  predicate SameFamily(t: Table, i: Id, j: Id)
    requires i < |t| && j < |t|
  {
    t[i].family == t[j].family
  }

  /** Session j is the next one of session i's family. */
  ghost predicate NextInFamily(t: Table, i: Id, j: Id) {
    i < j < |t| && SameFamily(t, i, j) && forall k :: i < k < j ==> !SameFamily(t, i, k)
  }

  /** Within a family every session but the last is revoked and points at the next one; the last points
      nowhere. Families are ordered by issue time and belong to one user. */
  ghost predicate Chain(t: Table) {
    && (forall i: Id :: i < |t| ==> t[i].family <= i)
    && (forall i: Id, j: Id :: i < j < |t| && SameFamily(t, i, j) ==>
          t[i].revokedAt.Some? && t[i].replacedBy.Some? && t[i].user == t[j].user && t[i].issuedAt <= t[j].issuedAt)
    && (forall i: Id :: i < |t| && t[i].replacedBy.Some? ==> NextInFamily(t, i, t[i].replacedBy.value) && t[i].revokedAt.Some?)
  }

  ghost predicate IssuedBy(t: Table, now: int) {
    forall i: Id :: i < |t| ==> t[i].issuedAt <= now
  }

  /** Only revocation times change, and only from absent to present or between presents. */
  ghost predicate OnlyRevokes(t: Table, t': Table) {
    |t'| == |t| && forall i: Id :: i < |t| ==>
      t'[i] == t[i].(revokedAt := t'[i].revokedAt) && (t[i].revokedAt.Some? ==> t'[i].revokedAt.Some?)
  }

  lemma RevokingKeepsChain(t: Table, t': Table)
    requires Chain(t) && OnlyRevokes(t, t')
    ensures Chain(t')
  {
    assert forall i: Id, j: Id :: i < |t| && j < |t| ==> SameFamily(t', i, j) == SameFamily(t, i, j);
    forall i: Id | i < |t'| && t'[i].replacedBy.Some? ensures NextInFamily(t', i, t'[i].replacedBy.value) {
      assert NextInFamily(t, i, t[i].replacedBy.value);
    }
  }

  lemma LoginKeepsChain(t: Table, s: Session)
    requires Chain(t) && s.family == |t| && s.replacedBy.None?
    ensures Chain(t + [s])
  {
    var t' := t + [s];
    assert forall i: Id, j: Id :: i < |t| && j < |t| ==> SameFamily(t', i, j) == SameFamily(t, i, j);
    forall i: Id | i < |t'| && t'[i].replacedBy.Some? ensures NextInFamily(t', i, t'[i].replacedBy.value) {
      assert NextInFamily(t, i, t[i].replacedBy.value);
    }
  }

  /** Rotating an unrevoked session, which can only be the last of its family, extends the chain. */
  lemma RotationKeepsChain(t: Table, token: Id, now: int, cfg: Settings)
    requires Chain(t) && IssuedBy(t, now) && token < |t| && t[token].revokedAt.None?
    ensures var s := t[token];
            Chain(t[token := s.(revokedAt := Some(now), replacedBy := Some(|t|))] + [NewSession(s.user, s.family, now, cfg)])
  {
    var s, n := t[token], |t|;
    var t' := t[token := s.(revokedAt := Some(now), replacedBy := Some(n))] + [NewSession(s.user, s.family, now, cfg)];
    assert forall i: Id, j: Id :: i < n && j < n ==> SameFamily(t', i, j) == SameFamily(t, i, j);
    assert forall i: Id :: i < n ==> SameFamily(t', i, n) == SameFamily(t, i, token);
    forall k | token < k < n ensures !SameFamily(t, token, k) {
      if SameFamily(t, token, k) { assert false; }
    }
    forall i: Id | i < n && SameFamily(t, i, token) ensures i <= token {
      if token < i { assert SameFamily(t, token, i); }
    }
    forall i: Id | i < |t'| && t'[i].replacedBy.Some? ensures NextInFamily(t', i, t'[i].replacedBy.value) {
      if i != token {
        assert NextInFamily(t, i, t[i].replacedBy.value);
      }
    }
  }
}
