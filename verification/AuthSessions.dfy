/**
 Refresh-session rotation and revocation
 (backend/src/application/services/auth-session-service.ts).

 Every transaction takes the user's row lock before it reads the sessions it changes, so a run is a
 sequence of whole transactions in lock order.
 */
module AuthSessions {
  import opened Base

  datatype Session = Session(
    user: Id,
    tenant: Id,
    token: Id,                // the token's hash
    expiresAt: int,
    revokedAt: Option<int>,
    replacedBy: Option<Id>)

  /** `active`: status ACTIVE and not deleted. */
  datatype User = User(tenant: Id, active: bool, password: Id)

  datatype Audit =
    | SessionCreated(session: Id)
    | SessionRefreshed(previous: Id, successor: Id)
    | RefreshReuse(session: Id)
    | ChainRevoked(session: Id, count: nat)
    | AllRevoked(user: Id, count: nat)

  datatype Store = Store(users: map<Id, User>, sessions: map<Id, Session>, audit: seq<Audit>)

  // ---------------------------------------------------------------- chains

  /** The session `n` replacements after `s`, if the chain is that long. */
  function Follow(sessions: map<Id, Session>, s: Id, n: nat): Option<Id> {
    if n == 0 then (if s in sessions then Some(s) else None)
    else
      var p := Follow(sessions, s, n - 1);
      if p.Some? && p.value in sessions && sessions[p.value].replacedBy.Some?
         && sessions[p.value].replacedBy.value in sessions
        then sessions[p.value].replacedBy else None
  }

  ghost predicate Reaches(sessions: map<Id, Session>, s: Id, x: Id) {
    exists n: nat :: Follow(sessions, s, n) == Some(x)
  }

  /** The session and everything that replaced it, directly or not. */
  ghost function Chain(sessions: map<Id, Session>, s: Id): set<Id> {
    set x | x in sessions && Reaches(sessions, s, x)
  }

  // ---------------------------------------------------------------- transactions

  predicate Live(sessions: map<Id, Session>, x: Id) {
    x in sessions && sessions[x].revokedAt.None?
  }

  function LiveIds(sessions: map<Id, Session>): set<Id> {
    set x | x in sessions && sessions[x].revokedAt.None?
  }

  /** `updateMany` over the given ids: only rows not yet revoked change. */
  function Revoke(sessions: map<Id, Session>, ids: set<Id>, now: int): map<Id, Session> {
    map x | x in sessions :: if x in ids && sessions[x].revokedAt.None? then sessions[x].(revokedAt := Some(now)) else sessions[x]
  }

  function Holders(sessions: map<Id, Session>, token: Id): set<Id> {
    set x | x in sessions && sessions[x].token == token
  }

  /** The unique constraints a new row must meet; otherwise the transaction rolls back. */
  predicate Insertable(sessions: map<Id, Session>, id: Id, token: Id) {
    id !in sessions && Holders(sessions, token) == {}
  }

  function Create(st: Store, user: Id, tenant: Id, password: Option<Id>, id: Id, token: Id, expiresAt: int): Store {
    if user in st.users && st.users[user].active && st.users[user].tenant == tenant
       && (password.Some? ==> st.users[user].password == password.value)
       && Insertable(st.sessions, id, token)
    then Store(st.users,
               st.sessions[id := Session(user, tenant, token, expiresAt, None, None)],
               st.audit + [SessionCreated(id)])
    else st
  }

  /** The rotation itself, once the session is known to be live and its user active. */
  function Rotated(st: Store, x: Id, id: Id, token: Id, now: int, expiresAt: int): Store
    requires x in st.sessions
  {
    var s := st.sessions[x];
    Store(st.users,
          st.sessions[x := s.(revokedAt := Some(now), replacedBy := Some(id))]
                     [id := Session(s.user, s.tenant, token, expiresAt, None, None)],
          st.audit + [SessionCreated(id), SessionRefreshed(x, id)])
  }

  predicate Rotates(st: Store, x: Id, id: Id, token: Id, now: int) {
    && x in st.sessions
    && st.sessions[x].expiresAt > now && st.sessions[x].revokedAt.None?
    && st.sessions[x].user in st.users
    && st.users[st.sessions[x].user].active && st.users[st.sessions[x].user].tenant == st.sessions[x].tenant
    && Insertable(st.sessions, id, token)
  }

  /** A refresh of session `x`, the holder of the presented token. */
  function RefreshHolder(st: Store, x: Id, id: Id, token: Id, now: int, expiresAt: int): Store
    requires x in st.sessions
  {
    var s := st.sessions[x];
    if s.expiresAt <= now || s.user !in st.users then st
    else if s.revokedAt.Some? then
      (if s.replacedBy.Some? then st.(audit := st.audit + [RefreshReuse(x)]) else st)
    else if Rotates(st, x, id, token, now) then Rotated(st, x, id, token, now, expiresAt)
    else st  // inactive user or a clash of unique keys: rolled back
  }

  ghost function Refresh(st: Store, presented: Id, id: Id, token: Id, now: int, expiresAt: int): Store {
    if Holders(st.sessions, presented) == {} then st
    else
      var x :| x in Holders(st.sessions, presented);
      RefreshHolder(st, x, id, token, now, expiresAt)
  }

  ghost function RevokeChain(st: Store, s: Id, user: Id, now: int): Store {
    if user in st.users && s in st.sessions && st.sessions[s].user == user then
      var revoked := Chain(st.sessions, s) * LiveIds(st.sessions);
      Store(st.users, Revoke(st.sessions, Chain(st.sessions, s), now),
            if revoked == {} then st.audit else st.audit + [ChainRevoked(s, |revoked|)])
    else st
  }

  function SessionsOf(sessions: map<Id, Session>, user: Id): set<Id> {
    set x | x in sessions && sessions[x].user == user
  }

  function RevokeAll(st: Store, user: Id, now: int): Store {
    if user in st.users then
      var revoked := SessionsOf(st.sessions, user) * LiveIds(st.sessions);
      Store(st.users, Revoke(st.sessions, SessionsOf(st.sessions, user), now),
            if revoked == {} then st.audit else st.audit + [AllRevoked(user, |revoked|)])
    else st
  }

  datatype Event =
    | CreateEvent(user: Id, tenant: Id, password: Option<Id>, id: Id, token: Id, expiresAt: int)
    | RefreshEvent(presented: Id, id: Id, token: Id, now: int, expiresAt: int)
    | LogoutEvent(session: Id, user: Id, now: int)
    | RevokeAllEvent(user: Id, now: int)
    | UsersChanged(users: map<Id, User>)  // sign-ups, suspensions, password changes, deletions

  ghost function Apply(st: Store, e: Event): Store {
    match e
    case CreateEvent(user, tenant, password, id, token, expiresAt) => Create(st, user, tenant, password, id, token, expiresAt)
    case RefreshEvent(presented, id, token, now, expiresAt) => Refresh(st, presented, id, token, now, expiresAt)
    case LogoutEvent(s, user, now) => RevokeChain(st, s, user, now)
    case RevokeAllEvent(user, now) => RevokeAll(st, user, now)
    case UsersChanged(users) => st.(users := users)
  }

  ghost function Run(st: Store, events: seq<Event>): Store
    decreases |events|
  {
    if events == [] then st else Run(Apply(st, events[0]), events[1..])
  }

  predicate Empty(st: Store) {
    st.sessions == map[] && st.audit == []
  }

  // ---------------------------------------------------------------- what the audit trail records

  function CreatedIn(audit: seq<Audit>): seq<Id>
    decreases |audit|
  {
    if audit == [] then []
    else
      var last := audit[|audit| - 1];
      CreatedIn(audit[..|audit| - 1]) + (if last.SessionCreated? then [last.session] else [])
  }

  function RefreshedIn(audit: seq<Audit>): seq<(Id, Id)>
    decreases |audit|
  {
    if audit == [] then []
    else
      var last := audit[|audit| - 1];
      RefreshedIn(audit[..|audit| - 1]) + (if last.SessionRefreshed? then [(last.previous, last.successor)] else [])
  }

  function Links(sessions: map<Id, Session>): set<(Id, Id)> {
    set x | x in sessions && sessions[x].replacedBy.Some? :: (x, sessions[x].replacedBy.value)
  }

  predicate Distinct<T(==)>(s: seq<T>) {
    forall i, j :: 0 <= i < j < |s| ==> s[i] != s[j]
  }

  // ---------------------------------------------------------------- the invariant

  /** A replaced session is revoked and its successor exists and belongs to the same user and tenant. */
  predicate LinksSound(sessions: map<Id, Session>) {
    forall x :: x in sessions ==> LinkSound(sessions, x)
  }

  predicate LinkSound(sessions: map<Id, Session>, x: Id) {
    x in sessions && sessions[x].replacedBy.Some? ==>
      && sessions[x].revokedAt.Some?
      && sessions[x].replacedBy.value in sessions
      && sessions[sessions[x].replacedBy.value].user == sessions[x].user
      && sessions[sessions[x].replacedBy.value].tenant == sessions[x].tenant
  }

  predicate OnePredecessor(sessions: map<Id, Session>) {
    forall x, y :: x in sessions && y in sessions && sessions[x].replacedBy.Some? && sessions[x].replacedBy == sessions[y].replacedBy ==> x == y
  }

  predicate TokensUnique(sessions: map<Id, Session>) {
    forall x, y :: x in sessions && y in sessions && sessions[x].token == sessions[y].token ==> x == y
  }

  /** Sessions appear in the audit trail in creation order, and links only ever point forward in it. */
  ghost predicate CreationOrder(sessions: map<Id, Session>, created: seq<Id>) {
    && Distinct(created)
    && (forall x :: x in sessions <==> x in created)
    && (forall i, j | 0 <= i < |created| && 0 <= j < |created| && created[i] in sessions ::
          sessions[created[i]].replacedBy == Some(created[j]) ==> i < j)
  }

  ghost predicate RefreshesAreLinks(sessions: map<Id, Session>, refreshed: seq<(Id, Id)>) {
    && Distinct(refreshed)
    && (forall p :: p in refreshed <==> p in Links(sessions))
  }

  ghost predicate Inv(st: Store) {
    && LinksSound(st.sessions)
    && OnePredecessor(st.sessions)
    && TokensUnique(st.sessions)
    && CreationOrder(st.sessions, CreatedIn(st.audit))
    && RefreshesAreLinks(st.sessions, RefreshedIn(st.audit))
  }

  // ---------------------------------------------------------------- preservation

  lemma AuditAppend(audit: seq<Audit>, e: Audit)
    ensures CreatedIn(audit + [e]) == CreatedIn(audit) + (if e.SessionCreated? then [e.session] else [])
    ensures RefreshedIn(audit + [e]) == RefreshedIn(audit) + (if e.SessionRefreshed? then [(e.previous, e.successor)] else [])
  {
    assert (audit + [e])[..|audit|] == audit;
  }

  /** Revoking rows touches neither links nor tokens. */
  lemma RevokeKeepsInv(st: Store, ids: set<Id>, now: int)
    requires Inv(st)
    ensures Inv(st.(sessions := Revoke(st.sessions, ids, now)))
  {
    var after := Revoke(st.sessions, ids, now);
    assert after.Keys == st.sessions.Keys;
    assert forall x | x in after :: after[x] == st.sessions[x].(revokedAt := after[x].revokedAt);
    assert forall x | x in after && st.sessions[x].revokedAt.Some? :: after[x] == st.sessions[x];
    forall x | x in after ensures LinkSound(after, x) {
      assert LinkSound(st.sessions, x);
    }
    assert Links(after) == Links(st.sessions);
  }

  lemma InsertKeepsLinks(before: map<Id, Session>, id: Id, added: Session)
    requires LinksSound(before) && OnePredecessor(before) && id !in before && added.replacedBy.None?
    ensures LinksSound(before[id := added]) && OnePredecessor(before[id := added])
    ensures Links(before[id := added]) == Links(before)
  {
    var after := before[id := added];
    forall x | x in after ensures LinkSound(after, x) {
      assert LinkSound(before, x);
    }
    assert forall x :: x in before ==> after[x] == before[x];
    assert Links(after) == Links(before);
  }

  lemma InsertKeepsTokens(before: map<Id, Session>, id: Id, added: Session)
    requires TokensUnique(before) && Insertable(before, id, added.token)
    ensures TokensUnique(before[id := added])
  {
    assert forall x :: x in before && before[x].token == added.token ==> x in Holders(before, added.token);
  }

  lemma InsertKeepsOrder(before: map<Id, Session>, id: Id, added: Session, created: seq<Id>)
    requires LinksSound(before) && CreationOrder(before, created) && id !in before && added.replacedBy.None?
    ensures CreationOrder(before[id := added], created + [id])
  {
    NobodyPointsTo(before, id);
  }

  lemma CreateKeepsInv(st: Store, e: Event)
    requires Inv(st) && e.CreateEvent?
    ensures Inv(Apply(st, e))
  {
    if Apply(st, e) != st {
      var added := Session(e.user, e.tenant, e.token, e.expiresAt, None, None);
      AuditAppend(st.audit, SessionCreated(e.id));
      InsertKeepsLinks(st.sessions, e.id, added);
      InsertKeepsTokens(st.sessions, e.id, added);
      InsertKeepsOrder(st.sessions, e.id, added, CreatedIn(st.audit));
    }
  }

  lemma NobodyPointsTo(sessions: map<Id, Session>, id: Id)
    requires LinksSound(sessions) && id !in sessions
    ensures forall x :: x in sessions ==> sessions[x].replacedBy != Some(id)
  {
    forall x | x in sessions ensures sessions[x].replacedBy != Some(id) {
      assert LinkSound(sessions, x);
    }
  }

  lemma RotationKeepsLinks(st: Store, x: Id, id: Id, token: Id, now: int, expiresAt: int)
    requires Inv(st) && Rotates(st, x, id, token, now)
    ensures var after := Rotated(st, x, id, token, now, expiresAt).sessions;
      LinksSound(after) && OnePredecessor(after) && TokensUnique(after)
  {
    var after := Rotated(st, x, id, token, now, expiresAt).sessions;
    NobodyPointsTo(st.sessions, id);
    assert id != x;
    forall y | y in after ensures LinkSound(after, y) {
      assert LinkSound(st.sessions, y);
    }
    assert forall y :: y in st.sessions && st.sessions[y].token == token ==> y in Holders(st.sessions, token);
  }

  lemma LinksAfterRotation(before: map<Id, Session>, after: map<Id, Session>, x: Id, id: Id)
    requires x in before && before[x].replacedBy.None? && id !in before
    requires after.Keys == before.Keys + {id} && after[x].replacedBy == Some(id) && after[id].replacedBy.None?
    requires forall y :: y in before && y != x ==> after[y] == before[y]
    ensures Links(after) == Links(before) + {(x, id)}
  {
    forall p ensures p in Links(after) <==> p in Links(before) + {(x, id)} {
      if p in Links(after) {
        assert p.0 in after && after[p.0].replacedBy == Some(p.1);
      }
      if p in Links(before) {
        assert p.0 in before && before[p.0].replacedBy == Some(p.1) && p.0 != x;
      }
    }
  }

  lemma RotationKeepsTrail(st: Store, x: Id, id: Id, token: Id, now: int, expiresAt: int)
    requires Inv(st) && Rotates(st, x, id, token, now)
    ensures var st' := Rotated(st, x, id, token, now, expiresAt);
      CreationOrder(st'.sessions, CreatedIn(st'.audit)) && RefreshesAreLinks(st'.sessions, RefreshedIn(st'.audit))
  {
    var st' := Rotated(st, x, id, token, now, expiresAt);
    var created, refreshed := CreatedIn(st.audit), RefreshedIn(st.audit);
    AuditAppend(st.audit, SessionCreated(id));
    AuditAppend(st.audit + [SessionCreated(id)], SessionRefreshed(x, id));
    assert st'.audit == st.audit + [SessionCreated(id)] + [SessionRefreshed(x, id)];
    assert CreatedIn(st'.audit) == created + [id] && RefreshedIn(st'.audit) == refreshed + [(x, id)];
    NobodyPointsTo(st.sessions, id);
    assert LinkSound(st.sessions, x);
    LinksAfterRotation(st.sessions, st'.sessions, x, id);
    assert (x, id) !in Links(st.sessions);
  }

  lemma RefreshKeepsInv(st: Store, e: Event)
    requires Inv(st) && e.RefreshEvent?
    ensures Inv(Apply(st, e))
  {
    if Holders(st.sessions, e.presented) != {} {
      var x :| x in Holders(st.sessions, e.presented)
        && Apply(st, e) == RefreshHolder(st, x, e.id, e.token, e.now, e.expiresAt);
      AuditAppend(st.audit, RefreshReuse(x));
      if Rotates(st, x, e.id, e.token, e.now) {
        RotationKeepsLinks(st, x, e.id, e.token, e.now, e.expiresAt);
        RotationKeepsTrail(st, x, e.id, e.token, e.now, e.expiresAt);
      }
    }
  }

  lemma RevocationKeepsInv(st: Store, ids: set<Id>, now: int, e: Audit)
    requires Inv(st) && (e.ChainRevoked? || e.AllRevoked?)
    ensures Inv(Store(st.users, Revoke(st.sessions, ids, now), st.audit))
    ensures Inv(Store(st.users, Revoke(st.sessions, ids, now), st.audit + [e]))
  {
    RevokeKeepsInv(st, ids, now);
    AuditAppend(st.audit, e);
  }

  lemma ApplyKeepsInv(st: Store, e: Event)
    requires Inv(st)
    ensures Inv(Apply(st, e))
  {
    match e
    case CreateEvent(_, _, _, _, _, _) => CreateKeepsInv(st, e);
    case RefreshEvent(_, _, _, _, _) => RefreshKeepsInv(st, e);
    case LogoutEvent(s, user, now) => LogoutKeepsInv(st, s, user, now);
    case RevokeAllEvent(user, now) => RevokeAllKeepsInv(st, user, now);
    case UsersChanged(users) => UsersKeepInv(st, users);
  }

  lemma LogoutKeepsInv(st: Store, s: Id, user: Id, now: int)
    requires Inv(st)
    ensures Inv(RevokeChain(st, s, user, now))
  {
    var chain := Chain(st.sessions, s);
    RevocationKeepsInv(st, chain, now, ChainRevoked(s, |chain * LiveIds(st.sessions)|));
  }

  lemma RevokeAllKeepsInv(st: Store, user: Id, now: int)
    requires Inv(st)
    ensures Inv(RevokeAll(st, user, now))
  {
    var all := SessionsOf(st.sessions, user);
    RevocationKeepsInv(st, all, now, AllRevoked(user, |all * LiveIds(st.sessions)|));
  }

  lemma UsersKeepInv(st: Store, users: map<Id, User>)
    requires Inv(st)
    ensures Inv(st.(users := users))
  {
  }

  lemma {:induction false} RunKeepsInv(st: Store, events: seq<Event>)
    requires Inv(st)
    ensures Inv(Run(st, events))
    decreases |events|
  {
    if events != [] {
      ApplyKeepsInv(st, events[0]);
      RunKeepsInv(Apply(st, events[0]), events[1..]);
    }
  }

  // ---------------------------------------------------------------- the shape of every store

  /** Where a session stands in creation order. */
  ghost function Rank(created: seq<Id>, x: Id): nat
    requires x in created
    ensures Rank(created, x) < |created| && created[Rank(created, x)] == x
  {
    var i :| 0 <= i < |created| && created[i] == x;
    i
  }

  lemma {:induction false} FollowClimbs(sessions: map<Id, Session>, created: seq<Id>, s: Id, n: nat)
    requires CreationOrder(sessions, created) && Follow(sessions, s, n).Some?
    ensures s in created && Follow(sessions, s, n).value in created
    ensures Rank(created, Follow(sessions, s, n).value) >= Rank(created, s) + n
  {
    if n > 0 {
      FollowClimbs(sessions, created, s, n - 1);
      var p, q := Follow(sessions, s, n - 1).value, Follow(sessions, s, n).value;
      assert sessions[created[Rank(created, p)]].replacedBy == Some(created[Rank(created, q)]);
    }
  }

  lemma {:induction false} FollowSplits(sessions: map<Id, Session>, s: Id, m: nat, n: nat)
    requires Follow(sessions, s, m).Some?
    ensures Follow(sessions, s, m + n) == Follow(sessions, Follow(sessions, s, m).value, n)
    decreases n
  {
    if n == 0 {
      assert Follow(sessions, s, m).value in sessions by {
        FollowStaysInside(sessions, s, m);
      }
    } else {
      FollowSplits(sessions, s, m, n - 1);
      assert m + n - 1 == m + (n - 1);
    }
  }

  lemma {:induction false} FollowStaysInside(sessions: map<Id, Session>, s: Id, n: nat)
    ensures Follow(sessions, s, n).Some? ==> s in sessions && Follow(sessions, s, n).value in sessions
  {
    if n > 0 {
      FollowStaysInside(sessions, s, n - 1);
    }
  }

  lemma {:induction false} FollowKeepsOwner(sessions: map<Id, Session>, s: Id, n: nat)
    requires LinksSound(sessions) && Follow(sessions, s, n).Some?
    ensures s in sessions && Follow(sessions, s, n).value in sessions
    ensures sessions[Follow(sessions, s, n).value].user == sessions[s].user
    ensures sessions[Follow(sessions, s, n).value].tenant == sessions[s].tenant
  {
    FollowStaysInside(sessions, s, n);
    if n > 0 {
      FollowKeepsOwner(sessions, s, n - 1);
      assert LinkSound(sessions, Follow(sessions, s, n - 1).value);
    }
  }

  /**
   Every reachable store is a disjoint union of finite paths: no session reaches itself, none has two
   predecessors, owner and tenant are constant along a path, and only its last session can be live.
   */
  lemma StoresArePaths(st0: Store, events: seq<Event>, s: Id, n: nat)
    requires Empty(st0)
    ensures Inv(Run(st0, events))
    ensures OnePredecessor(Run(st0, events).sessions)
    ensures var sessions := Run(st0, events).sessions; var x := Follow(sessions, s, n);
      x.Some? ==>
        && s in sessions && x.value in sessions
        && (n > 0 ==> x.value != s)
        && sessions[x.value].user == sessions[s].user && sessions[x.value].tenant == sessions[s].tenant
        && (Live(sessions, x.value) ==> Follow(sessions, s, n + 1).None?)
  {
    RunKeepsInv(st0, events);
    var st := Run(st0, events);
    if Follow(st.sessions, s, n).Some? {
      FollowKeepsOwner(st.sessions, s, n);
      FollowClimbs(st.sessions, CreatedIn(st.audit), s, n);
      var x := Follow(st.sessions, s, n).value;
      assert LinkSound(st.sessions, x);
    }
  }

  lemma {:induction false} DistinctCounts<T>(s: seq<T>, all: set<T>)
    requires Distinct(s) && forall x :: x in s <==> x in all
    ensures |s| == |all|
    decreases |s|
  {
    if s == [] {
      assert all == {};
    } else {
      var last, rest := s[|s| - 1], s[..|s| - 1];
      assert s == rest + [last];
      forall x ensures x in rest <==> x in all - {last} {
        assert x in s <==> x in rest || x == last;
      }
      DistinctCounts(rest, all - {last});
    }
  }

  /**
   The audit trail reconstructs the session graph: one creation per session, one refresh per link,
   so each token is rotated at most once.
   */
  lemma AuditTrailIsExact(st0: Store, events: seq<Event>)
    requires Empty(st0)
    ensures var st := Run(st0, events);
      && |CreatedIn(st.audit)| == |st.sessions.Keys| && (forall x :: x in CreatedIn(st.audit) <==> x in st.sessions)
      && |RefreshedIn(st.audit)| == |Links(st.sessions)| && (forall p :: p in RefreshedIn(st.audit) <==> p in Links(st.sessions))
      && (forall i, j | 0 <= i < |RefreshedIn(st.audit)| && 0 <= j < |RefreshedIn(st.audit)| ::
            RefreshedIn(st.audit)[i].0 == RefreshedIn(st.audit)[j].0 ==> i == j)
  {
    RunKeepsInv(st0, events);
    var st := Run(st0, events);
    var refreshed := RefreshedIn(st.audit);
    DistinctCounts(CreatedIn(st.audit), st.sessions.Keys);
    DistinctCounts(refreshed, Links(st.sessions));
    forall i, j | 0 <= i < |refreshed| && 0 <= j < |refreshed| && refreshed[i].0 == refreshed[j].0 ensures i == j {
      assert refreshed[i] in Links(st.sessions) && refreshed[j] in Links(st.sessions);
      assert refreshed[i] == refreshed[j];
    }
  }

  // ---------------------------------------------------------------- who gets a session

  /** A successor was only ever made from a session that had not expired. */
  predicate RotatedInTime(sessions: map<Id, Session>) {
    forall x :: x in sessions && sessions[x].replacedBy.Some? ==>
      sessions[x].revokedAt.Some? && sessions[x].revokedAt.value < sessions[x].expiresAt
  }

  lemma ApplyKeepsRotatedInTime(st: Store, e: Event)
    requires RotatedInTime(st.sessions)
    ensures RotatedInTime(Apply(st, e).sessions)
  {
  }

  /** In every run each replaced session was rotated strictly before it expired. */
  lemma {:induction false} NoExpiredSessionIsRotated(st: Store, events: seq<Event>)
    requires RotatedInTime(st.sessions)
    ensures RotatedInTime(Run(st, events).sessions)
    decreases |events|
  {
    if events != [] {
      ApplyKeepsRotatedInTime(st, events[0]);
      NoExpiredSessionIsRotated(Apply(st, events[0]), events[1..]);
    }
  }

  /**
   Over every run, the tokens a refresh accepts: there is a successor afterwards exactly when the
   presented token belongs to an unexpired, unrevoked session of a user who exists, is active and still
   in the session's tenant, and the successor's keys are free. Then that session is revoked now and
   linked, the successor has its user and tenant, and no other session changes; otherwise none does.
   */
  lemma RefreshAcceptsIff(st0: Store, events: seq<Event>, presented: Id, id: Id, token: Id, now: int, expiresAt: int)
    requires Empty(st0)
    ensures RefreshIsDecided(Run(st0, events), presented, id, token, now, expiresAt)
  {
    RunKeepsInv(st0, events);
    DecideRefresh(Run(st0, events), presented, id, token, now, expiresAt);
  }

  ghost predicate RefreshIsDecided(st: Store, presented: Id, id: Id, token: Id, now: int, expiresAt: int) {
    var st' := Refresh(st, presented, id, token, now, expiresAt);
    && st'.users == st.users
    && (forall x :: x in st.sessions && Accepts(st, x, presented, id, token, now) ==>
          && st'.sessions == st.sessions[x := st.sessions[x].(revokedAt := Some(now), replacedBy := Some(id))]
                                        [id := Session(st.sessions[x].user, st.sessions[x].tenant, token, expiresAt, None, None)]
          && st'.audit == st.audit + [SessionCreated(id), SessionRefreshed(x, id)])
    && (forall x :: x in st.sessions && Reused(st, x, presented, now) ==>
          st'.sessions == st.sessions && st'.audit == st.audit + [RefreshReuse(x)])
    && ((forall x :: x in st.sessions ==> !Accepts(st, x, presented, id, token, now) && !Reused(st, x, presented, now)) ==> st' == st)
  }

  lemma DecideRefresh(st: Store, presented: Id, id: Id, token: Id, now: int, expiresAt: int)
    requires TokensUnique(st.sessions)
    ensures RefreshIsDecided(st, presented, id, token, now, expiresAt)
  {
    if Holders(st.sessions, presented) == {} {
      forall x | x in st.sessions ensures st.sessions[x].token != presented {
        assert x !in Holders(st.sessions, presented);
      }
    } else {
      var x :| x in Holders(st.sessions, presented);
      RefreshIsHolders(st, presented, x, id, token, now, expiresAt);
      AcceptsIsRotates(st, x, presented, id, token, now);
    }
  }

  /** A rotated token is presented again before it expires. */
  predicate Reused(st: Store, x: Id, presented: Id, now: int)
    requires x in st.sessions
  {
    && st.sessions[x].token == presented && now < st.sessions[x].expiresAt && st.sessions[x].user in st.users
    && st.sessions[x].revokedAt != None && st.sessions[x].replacedBy != None
  }

  /** The accepted tokens, in the fields of the row, the user and the clock. */
  predicate Accepts(st: Store, x: Id, presented: Id, id: Id, token: Id, now: int)
    requires x in st.sessions
  {
    && st.sessions[x].token == presented
    && now < st.sessions[x].expiresAt && st.sessions[x].revokedAt == None
    && st.sessions[x].user in st.users && st.users[st.sessions[x].user].active
    && st.users[st.sessions[x].user].tenant == st.sessions[x].tenant
    && id !in st.sessions && (forall y :: y in st.sessions ==> st.sessions[y].token != token)
  }

  lemma AcceptsIsRotates(st: Store, x: Id, presented: Id, id: Id, token: Id, now: int)
    requires x in st.sessions && st.sessions[x].token == presented
    ensures Accepts(st, x, presented, id, token, now) <==> Rotates(st, x, id, token, now)
  {
    if Holders(st.sessions, token) != {} {
      var y :| y in Holders(st.sessions, token);
      assert st.sessions[y].token == token;
    } else {
      forall y | y in st.sessions ensures st.sessions[y].token != token {
        assert y !in Holders(st.sessions, token);
      }
    }
  }

  lemma AcceptedAreRotated(st: Store, presented: Id, id: Id, token: Id, now: int)
    ensures (exists x: Id :: x in st.sessions && Accepts(st, x, presented, id, token, now))
        <==> exists x: Id :: x in Holders(st.sessions, presented) && Rotates(st, x, id, token, now)
  {
    forall x: Id | x in st.sessions && st.sessions[x].token == presented
      ensures Accepts(st, x, presented, id, token, now) <==> Rotates(st, x, id, token, now)
    {
      AcceptsIsRotates(st, x, presented, id, token, now);
    }
  }

  /**
   Who gets a new session: exactly a user who exists, is active and in that tenant, with the expected
   password where one is expected, under free keys. It is live, unlinked and changes no other session.
   */
  lemma CreateAcceptsIff(st: Store, user: Id, tenant: Id, password: Option<Id>, id: Id, token: Id, expiresAt: int)
    ensures var st' := Create(st, user, tenant, password, id, token, expiresAt);
      && (st' != st <==>
            && user in st.users && st.users[user].active && st.users[user].tenant == tenant
            && (password == None || password == Some(st.users[user].password))
            && id !in st.sessions && (forall y :: y in st.sessions ==> st.sessions[y].token != token))
      && (st' != st ==>
            && st'.users == st.users
            && st'.sessions == st.sessions[id := Session(user, tenant, token, expiresAt, None, None)])
  {
    var st' := Create(st, user, tenant, password, id, token, expiresAt);
    if Holders(st.sessions, token) != {} {
      var y :| y in Holders(st.sessions, token);
      assert st.sessions[y].token == token;
    } else {
      forall y | y in st.sessions ensures st.sessions[y].token != token {
        assert y !in Holders(st.sessions, token);
      }
      if id !in st.sessions {
        assert st.sessions[id := Session(user, tenant, token, expiresAt, None, None)] != st.sessions;
      }
    }
  }

  /** A logout's audit entry counts exactly the sessions that stopped being live; without any there is no entry. */
  lemma LogoutIsCounted(st: Store, s: Id, user: Id, now: int)
    ensures var st' := RevokeChain(st, s, user, now);
      && LiveIds(st'.sessions) <= LiveIds(st.sessions)
      && st'.audit == if LiveIds(st'.sessions) == LiveIds(st.sessions) then st.audit
                      else st.audit + [ChainRevoked(s, |LiveIds(st.sessions) - LiveIds(st'.sessions)|)]
  {
    StoppedLive(st.sessions, Chain(st.sessions, s), now);
  }

  /** So does that of a revocation of all the user's sessions. */
  lemma RevokeAllIsCounted(st: Store, user: Id, now: int)
    ensures var st' := RevokeAll(st, user, now);
      && LiveIds(st'.sessions) <= LiveIds(st.sessions)
      && st'.audit == if LiveIds(st'.sessions) == LiveIds(st.sessions) then st.audit
                      else st.audit + [AllRevoked(user, |LiveIds(st.sessions) - LiveIds(st'.sessions)|)]
  {
    StoppedLive(st.sessions, SessionsOf(st.sessions, user), now);
  }

  lemma StoppedLive(sessions: map<Id, Session>, ids: set<Id>, now: int)
    ensures var after := Revoke(sessions, ids, now);
      && LiveIds(after) == LiveIds(sessions) - ids
      && LiveIds(sessions) - LiveIds(after) == ids * LiveIds(sessions)
      && (LiveIds(after) == LiveIds(sessions) <==> ids * LiveIds(sessions) == {})
  {
    var after := Revoke(sessions, ids, now);
    LiveAfterRevoke(sessions, ids, now);
    var live := LiveIds(sessions);
    if ids * live != {} {
      var x :| x in ids * live;
      assert x in live && x !in live - ids;
    } else {
      forall x ensures x in live - ids <==> x in live {
        assert x in live && x in ids ==> x in ids * live;
      }
    }
  }

  // ---------------------------------------------------------------- logout

  /** A revoked row is never touched again. */
  lemma RevokedRowsFrozen(st: Store, e: Event, x: Id)
    requires x in st.sessions && st.sessions[x].revokedAt.Some?
    ensures x in Apply(st, e).sessions && Apply(st, e).sessions[x] == st.sessions[x]
  {
    if e.RefreshEvent? && Holders(st.sessions, e.presented) != {} {
      var y :| y in Holders(st.sessions, e.presented)
        && Apply(st, e) == RefreshHolder(st, y, e.id, e.token, e.now, e.expiresAt);
    }
  }

  lemma {:induction false} RevokedRowsFrozenForever(st: Store, events: seq<Event>, x: Id)
    requires x in st.sessions && st.sessions[x].revokedAt.Some?
    ensures x in Run(st, events).sessions && Run(st, events).sessions[x] == st.sessions[x]
    decreases |events|
  {
    if events != [] {
      RevokedRowsFrozen(st, events[0], x);
      RevokedRowsFrozenForever(Apply(st, events[0]), events[1..], x);
    }
  }

  /** Two tables that agree on a chain of `a`, whose links all stay inside `a`, have the same chain. */
  lemma {:induction false} SameFollow(a: map<Id, Session>, b: map<Id, Session>, s: Id, n: nat)
    requires LinksSound(a) && s in a
    requires forall x :: Reaches(a, s, x) ==> x in a && x in b && b[x].replacedBy == a[x].replacedBy
    ensures Follow(b, s, n) == Follow(a, s, n)
  {
    assert Follow(a, s, 0) == Some(s);
    if n > 0 {
      SameFollow(a, b, s, n - 1);
      var p := Follow(a, s, n - 1);
      if p.Some? {
        assert Reaches(a, s, p.value);
        if a[p.value].replacedBy.Some? {
          assert LinkSound(a, p.value);
          assert Follow(a, s, n) == a[p.value].replacedBy;
          assert Reaches(a, s, a[p.value].replacedBy.value);
        }
      }
    }
  }

  lemma RevokeKeepsFollow(sessions: map<Id, Session>, ids: set<Id>, now: int, s: Id)
    requires LinksSound(sessions) && s in sessions
    ensures forall n: nat :: Follow(Revoke(sessions, ids, now), s, n) == Follow(sessions, s, n)
    ensures Chain(Revoke(sessions, ids, now), s) == Chain(sessions, s)
  {
    var after := Revoke(sessions, ids, now);
    forall x | Reaches(sessions, s, x) ensures x in sessions {
      var n: nat :| Follow(sessions, s, n) == Some(x);
      FollowStaysInside(sessions, s, n);
    }
    forall n: nat ensures Follow(after, s, n) == Follow(sessions, s, n) {
      SameFollow(sessions, after, s, n);
    }
    forall x: Id ensures Reaches(after, s, x) <==> Reaches(sessions, s, x) {
      if Reaches(after, s, x) {
        var n: nat :| Follow(after, s, n) == Some(x);
        assert Follow(sessions, s, n) == Some(x);
      }
      if Reaches(sessions, s, x) {
        var n: nat :| Follow(sessions, s, n) == Some(x);
        assert Follow(after, s, n) == Some(x);
      }
    }
  }

  /**
   Logout is final. In every continuation of the run, exactly the sessions that were reachable from
   the logged-out one at logout are reachable from it, and none of them is live: no refresh ever
   extends the chain.
   */
  lemma LogoutIsFinal(st: Store, s: Id, now: int, events: seq<Event>)
    requires Inv(st) && s in st.sessions && st.sessions[s].user in st.users
    ensures var st' := Run(RevokeChain(st, s, st.sessions[s].user, now), events);
      && Chain(st'.sessions, s) == Chain(st.sessions, s)
      && forall x :: x in Chain(st'.sessions, s) ==> !Live(st'.sessions, x)
  {
    var out := RevokeChain(st, s, st.sessions[s].user, now);
    var end := Run(out, events);
    RevokeKeepsInv(st, Chain(st.sessions, s), now);
    RevokeKeepsFollow(st.sessions, Chain(st.sessions, s), now, s);
    forall x | Reaches(out.sessions, s, x)
      ensures x in out.sessions && out.sessions[x].revokedAt.Some? && x in end.sessions && end.sessions[x] == out.sessions[x]
    {
      var n: nat :| Follow(out.sessions, s, n) == Some(x);
      FollowStaysInside(out.sessions, s, n);
      assert Follow(st.sessions, s, n) == Some(x);
      assert x in Chain(st.sessions, s);
      RevokedRowsFrozenForever(out, events, x);
    }
    forall x: Id ensures Reaches(end.sessions, s, x) <==> Reaches(out.sessions, s, x) {
      ReachesAgree(out.sessions, end.sessions, s, x);
    }
  }

  lemma ReachesAgree(a: map<Id, Session>, b: map<Id, Session>, s: Id, x: Id)
    requires LinksSound(a) && s in a
    requires forall y :: Reaches(a, s, y) ==> y in a && y in b && b[y].replacedBy == a[y].replacedBy
    ensures Reaches(b, s, x) <==> Reaches(a, s, x)
  {
    if Reaches(a, s, x) {
      var n: nat :| Follow(a, s, n) == Some(x);
      SameFollow(a, b, s, n);
    }
    if Reaches(b, s, x) {
      var n: nat :| Follow(b, s, n) == Some(x);
      SameFollow(a, b, s, n);
    }
  }

  // ---------------------------------------------------------------- a refresh racing a logout

  lemma LiveAfterRevoke(sessions: map<Id, Session>, ids: set<Id>, now: int)
    ensures LiveIds(Revoke(sessions, ids, now)) == LiveIds(sessions) - ids
  {
  }

  lemma ReachesNext(sessions: map<Id, Session>, s: Id, p: Id, q: Id)
    requires Reaches(sessions, s, p) && p in sessions && sessions[p].replacedBy == Some(q) && q in sessions
    ensures Reaches(sessions, s, q)
  {
    var n: nat :| Follow(sessions, s, n) == Some(p);
    assert Follow(sessions, s, n + 1) == Some(q);
  }

  lemma {:induction false} FollowSurvivesRotation(before: map<Id, Session>, after: map<Id, Session>, s: Id, x: Id, n: nat)
    requires x in before && before[x].replacedBy.None? && before.Keys <= after.Keys
    requires forall y :: y in before && y != x ==> after[y] == before[y]
    ensures Follow(before, s, n).Some? ==> Follow(after, s, n) == Follow(before, s, n)
  {
    if n > 0 {
      FollowSurvivesRotation(before, after, s, x, n - 1);
    }
  }

  lemma {:induction false} FollowAfterRotation(before: map<Id, Session>, after: map<Id, Session>, s: Id, x: Id, id: Id, n: nat)
    requires LinksSound(before) && s in before && x in before && id !in before
    requires after.Keys == before.Keys + {id} && after[x].replacedBy == Some(id) && after[id].replacedBy.None?
    requires forall y :: y in before && y != x ==> after[y] == before[y]
    requires Follow(after, s, n).Some?
    ensures Follow(after, s, n).value == id || Reaches(before, s, Follow(after, s, n).value)
  {
    if n == 0 {
      assert Follow(before, s, 0) == Some(s);
    } else {
      FollowAfterRotation(before, after, s, x, id, n - 1);
      var p, y := Follow(after, s, n - 1).value, Follow(after, s, n).value;
      if p != x && p != id {
        assert LinkSound(before, p);
        ReachesNext(before, s, p, y);
      }
    }
  }

  /** Rotating a session of the chain appends its successor to the chain and changes nothing else in it. */
  lemma ChainAfterRotation(before: map<Id, Session>, after: map<Id, Session>, s: Id, x: Id, id: Id)
    requires LinksSound(before) && s in before && x in Chain(before, s) && before[x].replacedBy.None? && id !in before
    requires after.Keys == before.Keys + {id} && after[x].replacedBy == Some(id) && after[id].replacedBy.None?
    requires forall y :: y in before && y != x ==> after[y] == before[y]
    ensures Chain(after, s) == Chain(before, s) + {id}
  {
    forall y: Id | y in Chain(before, s) ensures y in Chain(after, s) {
      var n: nat :| Follow(before, s, n) == Some(y);
      FollowSurvivesRotation(before, after, s, x, n);
      assert Follow(after, s, n) == Some(y);
    }
    ReachesNext(after, s, x, id);
    forall y: Id | y in Chain(after, s) ensures y in Chain(before, s) + {id} {
      var n: nat :| Follow(after, s, n) == Some(y);
      FollowAfterRotation(before, after, s, x, id, n);
    }
  }

  lemma ChainElsewhere(before: map<Id, Session>, after: map<Id, Session>, s: Id, x: Id)
    requires LinksSound(before) && s in before && x !in Chain(before, s) && x in before && before.Keys <= after.Keys
    requires forall y :: y in before && y != x ==> after[y] == before[y]
    ensures Chain(after, s) == Chain(before, s)
  {
    forall y: Id | Reaches(before, s, y) ensures y in before && y != x {
      var n: nat :| Follow(before, s, n) == Some(y);
      FollowStaysInside(before, s, n);
    }
    forall y: Id ensures Reaches(after, s, y) <==> Reaches(before, s, y) {
      ReachesAgree(before, after, s, y);
    }
  }

  lemma RefreshIsHolders(st: Store, presented: Id, x: Id, id: Id, token: Id, now: int, expiresAt: int)
    requires TokensUnique(st.sessions) && x in Holders(st.sessions, presented)
    ensures Refresh(st, presented, id, token, now, expiresAt) == RefreshHolder(st, x, id, token, now, expiresAt)
  {
  }

  lemma LiveAfterRefresh(st: Store, x: Id, id: Id, token: Id, now: int, expiresAt: int)
    requires x in st.sessions
    ensures LiveIds(RefreshHolder(st, x, id, token, now, expiresAt).sessions)
         == if Rotates(st, x, id, token, now) then LiveIds(st.sessions) - {x} + {id} else LiveIds(st.sessions)
  {
    if Rotates(st, x, id, token, now) {
      var after := Rotated(st, x, id, token, now, expiresAt).sessions;
      assert forall y :: y in after <==> y in st.sessions || y == id;
    }
  }

  lemma RotatesUnderRevoke(st: Store, ids: set<Id>, now0: int, x: Id, id: Id, token: Id, now: int, audit: seq<Audit>)
    requires x in st.sessions
    ensures Rotates(Store(st.users, Revoke(st.sessions, ids, now0), audit), x, id, token, now)
        <==> Rotates(st, x, id, token, now) && x !in ids
  {
    assert Holders(Revoke(st.sessions, ids, now0), token) == Holders(st.sessions, token);
  }

  /**
   A refresh and a logout racing for the same user lock leave the same sessions live in either order,
   whether or not the refreshed token belongs to the chain being logged out.
   */
  lemma RefreshAndLogoutCommute(st: Store, s: Id, user: Id, now0: int, presented: Id, id: Id, token: Id, now: int, expiresAt: int)
    requires Inv(st) && s in st.sessions
    ensures LiveIds(Refresh(RevokeChain(st, s, user, now0), presented, id, token, now, expiresAt).sessions)
         == LiveIds(RevokeChain(Refresh(st, presented, id, token, now, expiresAt), s, user, now0).sessions)
  {
    if !(user in st.users && st.sessions[s].user == user) {
      ForeignLogoutDoesNothing(st, s, user, now0, presented, id, token, now, expiresAt);
    } else if Holders(st.sessions, presented) == {} {
      assert Holders(RevokeChain(st, s, user, now0).sessions, presented) == {};
    } else {
      var x :| x in Holders(st.sessions, presented);
      RefreshIsHolders(st, presented, x, id, token, now, expiresAt);
      LogoutThenRefresh(st, s, user, now0, presented, x, id, token, now, expiresAt);
      RefreshThenLogout(st, s, user, now0, x, id, token, now, expiresAt);
    }
  }

  lemma LogoutThenRefresh(st: Store, s: Id, user: Id, now0: int, presented: Id, x: Id, id: Id, token: Id, now: int, expiresAt: int)
    requires Inv(st) && user in st.users && s in st.sessions && st.sessions[s].user == user
    requires x in Holders(st.sessions, presented)
    ensures var chain := Chain(st.sessions, s);
      LiveIds(Refresh(RevokeChain(st, s, user, now0), presented, id, token, now, expiresAt).sessions)
      == if Rotates(st, x, id, token, now) && x !in chain then LiveIds(st.sessions) - chain - {x} + {id}
         else LiveIds(st.sessions) - chain
  {
    var chain, out := Chain(st.sessions, s), RevokeChain(st, s, user, now0);
    LiveAfterRevoke(st.sessions, chain, now0);
    TokensAfterRevoke(st.sessions, chain, now0, presented);
    RefreshIsHolders(out, presented, x, id, token, now, expiresAt);
    LiveAfterRefresh(out, x, id, token, now, expiresAt);
    RotatesUnderRevoke(st, chain, now0, x, id, token, now, out.audit);
  }

  lemma TokensAfterRevoke(sessions: map<Id, Session>, ids: set<Id>, now: int, token: Id)
    requires TokensUnique(sessions)
    ensures TokensUnique(Revoke(sessions, ids, now)) && Holders(Revoke(sessions, ids, now), token) == Holders(sessions, token)
  {
  }

  lemma RefreshThenLogout(st: Store, s: Id, user: Id, now0: int, x: Id, id: Id, token: Id, now: int, expiresAt: int)
    requires Inv(st) && x in st.sessions && user in st.users && s in st.sessions && st.sessions[s].user == user
    ensures var chain := Chain(st.sessions, s);
      LiveIds(RevokeChain(RefreshHolder(st, x, id, token, now, expiresAt), s, user, now0).sessions)
      == if Rotates(st, x, id, token, now) && x !in chain then LiveIds(st.sessions) - chain - {x} + {id}
         else LiveIds(st.sessions) - chain
  {
    var chain, mid := Chain(st.sessions, s), RefreshHolder(st, x, id, token, now, expiresAt);
    LiveAfterRefresh(st, x, id, token, now, expiresAt);
    LiveAfterRevoke(mid.sessions, Chain(mid.sessions, s), now0);
    if Rotates(st, x, id, token, now) {
      assert LinkSound(st.sessions, x);
      assert mid.sessions.Keys == st.sessions.Keys + {id};
      if x in chain {
        ChainAfterRotation(st.sessions, mid.sessions, s, x, id);
      } else {
        ChainElsewhere(st.sessions, mid.sessions, s, x);
      }
      assert id !in chain;
    }
  }

  /** A logout by anybody but the session's owner changes nothing, before or after a refresh. */
  lemma ForeignLogoutDoesNothing(st: Store, s: Id, user: Id, now0: int, presented: Id, id: Id, token: Id, now: int, expiresAt: int)
    requires s in st.sessions && !(user in st.users && st.sessions[s].user == user)
    ensures RevokeChain(st, s, user, now0) == st
    ensures var refreshed := Refresh(st, presented, id, token, now, expiresAt);
      RevokeChain(refreshed, s, user, now0) == refreshed
  {
  }

  // ---------------------------------------------------------------- the service

  class SessionService {
    var users: map<Id, User>
    var sessions: map<Id, Session>
    var audit: seq<Audit>

    ghost function State(): Store
      reads this
    {
      Store(users, sessions, audit)
    }

    ghost predicate Valid()
      reads this
    {
      Inv(State())
    }

    constructor (users: map<Id, User>)
      ensures Valid() && Empty(State()) && this.users == users
    {
      this.users, sessions, audit := users, map[], [];
    }

    /** `createSession`; `created` is false when the transaction is refused or rolled back. */
    method CreateSession(user: Id, tenant: Id, expectedPassword: Option<Id>, id: Id, token: Id, expiresAt: int)
      returns (created: bool)
      modifies this
      ensures State() == Create(old(State()), user, tenant, expectedPassword, id, token, expiresAt)
      ensures created <==> State() != old(State())
      ensures created <==>
        && user in users && users[user].active && users[user].tenant == tenant
        && (expectedPassword == None || expectedPassword == Some(users[user].password))
        && id !in old(sessions) && (forall y :: y in old(sessions) ==> old(sessions)[y].token != token)
    {
      CreateAcceptsIff(State(), user, tenant, expectedPassword, id, token, expiresAt);
      created := false;
      if user !in users {
        return;
      }
      var account := users[user];
      if account.tenant != tenant || !account.active {
        return;
      }
      if expectedPassword.Some? && account.password != expectedPassword.value {
        return;
      }
      if id in sessions || Holders(sessions, token) != {} {
        return;
      }
      sessions := sessions[id := Session(user, tenant, token, expiresAt, None, None)];
      audit := audit + [SessionCreated(id)];
      created := true;
    }

    /** `refresh`: the successor's id, or none when the token is refused. */
    method RefreshSession(presented: Id, id: Id, token: Id, now: int, expiresAt: int) returns (rotated: Option<Id>)
      requires TokensUnique(sessions)
      modifies this
      ensures State() == Refresh(old(State()), presented, id, token, now, expiresAt)
      ensures rotated == if exists x: Id :: x in Holders(old(sessions), presented) && Rotates(old(State()), x, id, token, now)
                         then Some(id) else None
      ensures rotated.Some? <==> exists x: Id :: x in old(sessions) && Accepts(old(State()), x, presented, id, token, now)
      ensures RefreshIsDecided(old(State()), presented, id, token, now, expiresAt)
    {
      DecideRefresh(State(), presented, id, token, now, expiresAt);
      AcceptedAreRotated(State(), presented, id, token, now);
      rotated := None;
      var found := Holders(sessions, presented);
      if found == {} {
        return;
      }
      var x :| x in found;
      RefreshIsHolders(State(), presented, x, id, token, now, expiresAt);
      assert forall y :: y in found ==> y == x;
      var current := sessions[x];
      if current.expiresAt <= now || current.user !in users {
        return;
      }
      if current.revokedAt.Some? {
        if current.replacedBy.Some? {
          audit := audit + [RefreshReuse(x)];
        }
        return;
      }
      var account := users[current.user];
      if !account.active || account.tenant != current.tenant || id in sessions || Holders(sessions, token) != {} {
        return;
      }
      sessions := sessions[x := current.(revokedAt := Some(now))];
      sessions := sessions[id := Session(current.user, account.tenant, token, expiresAt, None, None)];
      sessions := sessions[x := sessions[x].(replacedBy := Some(id))];
      audit := audit + [SessionCreated(id)];
      audit := audit + [SessionRefreshed(x, id)];
      rotated := Some(id);
    }

    /**
     The walk of `revokeSessionChain`. It ends, and neither the visited set nor a missing row ever
     cuts it short: the ids are the whole chain, each once, in order.
     */
    method WalkChain(s: Id, user: Id) returns (ids: seq<Id>)
      requires Valid()
      ensures if s in sessions && sessions[s].user == user then IsChain(sessions, s, ids) else ids == []
    {
      ids := [];
      var visited: set<Id> := {};
      var cursor := Some(s);
      while cursor.Some? && cursor.value !in visited
        invariant visited == (set x | x in ids) && visited <= sessions.Keys
        invariant Walking(sessions, s, user, ids, cursor)
        invariant cursor.Some? ==> cursor.value !in visited
        decreases sessions.Keys - visited
      {
        var c := cursor.value;
        if c !in sessions || sessions[c].user != user {
          WalkNeverBreaks(State(), s, user, ids, c);
          break;
        }
        WalkExtends(State(), s, user, ids, c);
        ids := ids + [c];
        visited := visited + {c};
        cursor := sessions[c].replacedBy;
      }
      if ids != [] {
        WholeChain(State(), s, ids);
      }
    }

    /** `revokeCurrent` and `revokeById`. */
    method RevokeSessionChain(s: Id, user: Id, now: int)
      requires Valid()
      modifies this
      ensures State() == RevokeChain(old(State()), s, user, now)
    {
      if user in users {
        var ids := WalkChain(s, user);
        RevokeWalked(s, user, ids, now);
      }
    }

    method RevokeWalked(s: Id, user: Id, ids: seq<Id>, now: int)
      requires user in users
      requires if s in sessions && sessions[s].user == user then IsChain(sessions, s, ids) else ids == []
      modifies this`sessions, this`audit
      ensures State() == RevokeChain(old(State()), s, user, now)
    {
      if ids != [] {
        var chain := set x | x in ids;
        assert chain == Chain(sessions, s);
        RevokeIds(chain, ChainRevoked(s, 0), now);
      }
    }

    /** `updateMany` over the given sessions, with an audit entry counting the rows it changed. */
    method RevokeIds(ids: set<Id>, entry: Audit, now: int)
      requires entry.ChainRevoked? || entry.AllRevoked?
      modifies this`sessions, this`audit
      ensures sessions == Revoke(old(sessions), ids, now)
      ensures audit == old(audit) + if ids * LiveIds(old(sessions)) == {} then []
                                    else [entry.(count := |ids * LiveIds(old(sessions))|)]
    {
      var revoked := ids * LiveIds(sessions);
      sessions := Revoke(sessions, ids, now);
      if |revoked| > 0 {
        audit := audit + [entry.(count := |revoked|)];
      }
    }

    /** `revokeAll`. */
    method RevokeAllSessions(user: Id, now: int)
      modifies this
      ensures State() == RevokeAll(old(State()), user, now)
      ensures user in users ==> forall x :: x in sessions && sessions[x].user == user ==> !Live(sessions, x)
    {
      if user !in users {
        return;
      }
      RevokeIds(SessionsOf(sessions, user), AllRevoked(user, 0), now);
    }
  }

  predicate ChainPrefix(sessions: map<Id, Session>, s: Id, ids: seq<Id>) {
    ids != [] && forall k :: 0 <= k < |ids| ==> Follow(sessions, s, k) == Some(ids[k])
  }

  /** The whole chain of `s`, each session once, from `s` to the one nothing has replaced. */
  ghost predicate IsChain(sessions: map<Id, Session>, s: Id, ids: seq<Id>) {
    && ChainPrefix(sessions, s, ids) && Distinct(ids)
    && ids[|ids| - 1] in sessions && sessions[ids[|ids| - 1]].replacedBy.None?
    && (set x | x in ids) == Chain(sessions, s)
  }

  predicate Walking(sessions: map<Id, Session>, s: Id, user: Id, ids: seq<Id>, cursor: Option<Id>) {
    if ids == [] then cursor == Some(s)
    else
      && ChainPrefix(sessions, s, ids) && s in sessions && sessions[s].user == user
      && ids[|ids| - 1] in sessions && cursor == sessions[ids[|ids| - 1]].replacedBy
  }

  lemma WalkExtends(st: Store, s: Id, user: Id, ids: seq<Id>, c: Id)
    requires Inv(st) && Walking(st.sessions, s, user, ids, Some(c))
    requires c in st.sessions && st.sessions[c].user == user
    ensures Walking(st.sessions, s, user, ids + [c], st.sessions[c].replacedBy)
    ensures st.sessions[c].replacedBy.Some? ==> st.sessions[c].replacedBy.value !in ids + [c]
  {
    var longer := ids + [c];
    assert Follow(st.sessions, s, 0).Some? ==> Follow(st.sessions, s, 0) == Some(s);
    assert ChainPrefix(st.sessions, s, longer) by {
      assert forall k :: 0 <= k < |ids| ==> longer[k] == ids[k];
      assert Follow(st.sessions, s, |ids|) == Some(c);
    }
    NoRepetition(st, s, longer);
  }

  /** No row of a chain is missing or belongs to somebody else. */
  lemma WalkNeverBreaks(st: Store, s: Id, user: Id, ids: seq<Id>, c: Id)
    requires Inv(st) && Walking(st.sessions, s, user, ids, Some(c))
    ensures ids != [] ==> c in st.sessions && st.sessions[c].user == user
  {
    if ids != [] {
      FollowKeepsOwner(st.sessions, s, |ids| - 1);
      assert LinkSound(st.sessions, ids[|ids| - 1]);
    }
  }

  /** The link out of the last visited session never returns to a visited one. */
  lemma NoRepetition(st: Store, s: Id, ids: seq<Id>)
    requires Inv(st) && ChainPrefix(st.sessions, s, ids)
    ensures ids[|ids| - 1] in st.sessions
    ensures st.sessions[ids[|ids| - 1]].replacedBy.Some? ==> st.sessions[ids[|ids| - 1]].replacedBy.value !in ids
  {
    var m := |ids|;
    FollowStaysInside(st.sessions, s, m - 1);
    var last := ids[m - 1];
    assert LinkSound(st.sessions, last);
    if st.sessions[last].replacedBy.Some? {
      var next := st.sessions[last].replacedBy.value;
      assert Follow(st.sessions, s, m) == Some(next);
      forall k | 0 <= k < m ensures ids[k] != next {
        NeverBackTo(st, s, k, m);
      }
    }
  }

  lemma NeverBackTo(st: Store, s: Id, k: nat, m: nat)
    requires Inv(st) && k < m && Follow(st.sessions, s, k).Some?
    ensures Follow(st.sessions, s, m) != Follow(st.sessions, s, k)
  {
    FollowSplits(st.sessions, s, k, m - k);
    if Follow(st.sessions, s, m).Some? {
      FollowClimbs(st.sessions, CreatedIn(st.audit), Follow(st.sessions, s, k).value, m - k);
    }
  }

  lemma WholeChain(st: Store, s: Id, ids: seq<Id>)
    requires Inv(st) && ChainPrefix(st.sessions, s, ids)
    requires ids[|ids| - 1] in st.sessions && st.sessions[ids[|ids| - 1]].replacedBy.None?
    ensures IsChain(st.sessions, s, ids)
  {
    var m := |ids|;
    assert Follow(st.sessions, s, m).None?;
    forall j, k | 0 <= j < k < m ensures ids[j] != ids[k] {
      NeverBackTo(st, s, j, k);
    }
    forall x: Id ensures x in ids <==> x in Chain(st.sessions, s) {
      if x in ids {
        var k :| 0 <= k < m && ids[k] == x;
        FollowStaysInside(st.sessions, s, k);
      }
      if x in Chain(st.sessions, s) {
        var n: nat :| Follow(st.sessions, s, n) == Some(x);
        if n >= m {
          PastTheEnd(st.sessions, s, m, n);
        }
      }
    }
  }

  lemma {:induction false} PastTheEnd(sessions: map<Id, Session>, s: Id, m: nat, n: nat)
    requires Follow(sessions, s, m).None? && m <= n
    ensures Follow(sessions, s, n).None?
  {
    if m < n {
      PastTheEnd(sessions, s, m, n - 1);
    }
  }
}
