/** Refresh-token rotation by compare-and-swap. Tokens are issued from a counter, so every new one is fresh;
    a token stands for its hash. */
module Sessions {
  import opened Sql

  datatype Session = Session(access: nat, refresh: nat, expiresAt: int, refreshExpiresAt: int, revokedAt: Option<int>)

  type Table = map<nat, Session>

  /** What a refresh issues: the next two tokens and their lifetimes. */
  datatype Grant = Grant(access: nat, refresh: nat, expiresAt: int, refreshExpiresAt: int)

  /** WHERE id = $1 AND revoked_at IS NULL AND refresh_token_hash = $7. */
  predicate CanRotate(t: Table, id: nat, expected: nat) {
    id in t && t[id].revokedAt.None? && t[id].refresh == expected
  }

  function Rotated(t: Table, id: nat, g: Grant): Table
    requires id in t
  {
    t[id := Session(g.access, g.refresh, g.expiresAt, g.refreshExpiresAt, t[id].revokedAt)]
  }

  function Revoked(t: Table, id: nat, at: int): Table {
    if id in t && t[id].revokedAt.None? then t[id := t[id].(revokedAt := Some(at))] else t
  }

  predicate Refreshable(t: Table, id: nat, token: nat, now: int) {
    id in t && t[id].refresh == token && t[id].revokedAt.None? && t[id].refreshExpiresAt >= now
  }

  // ---------------------------------------------------------------- the service, undisturbed

  /** refresh_token_hash is unique. */
  predicate Unique(t: Table) {
    forall i, j :: i in t && j in t && t[i].refresh == t[j].refresh ==> i == j
  }

  class Store {
    var sessions: Table

    constructor ()
      ensures sessions == map[]
    {
      sessions := map[];
    }

    method RotateSession(id: nat, expected: nat, g: Grant) returns (ok: bool)
      modifies this
      ensures ok == CanRotate(old(sessions), id, expected)
      ensures sessions == if ok then Rotated(old(sessions), id, g) else old(sessions)
    {
      ok := id in sessions && sessions[id].revokedAt.None? && sessions[id].refresh == expected;
      if ok {
        sessions := sessions[id := Session(g.access, g.refresh, g.expiresAt, g.refreshExpiresAt, sessions[id].revokedAt)];
      }
    }

    method RevokeSession(id: nat, at: int) returns (ok: bool)
      modifies this
      ensures ok == (id in old(sessions) && old(sessions)[id].revokedAt.None?)
      ensures sessions == Revoked(old(sessions), id, at)
    {
      ok := id in sessions && sessions[id].revokedAt.None?;
      if ok {
        sessions := sessions[id := sessions[id].(revokedAt := Some(at))];
      }
    }

    method SessionByRefreshToken(token: nat) returns (found: Option<nat>)
      ensures found.Some? ==> found.value in sessions && sessions[found.value].refresh == token
      ensures found.None? ==> forall i :: i in sessions ==> sessions[i].refresh != token
    {
      if i: nat :| i in sessions && sessions[i].refresh == token {
        return Some(i);
      }
      return None;
    }

    /** Without interference a refresh succeeds exactly for the current token of a live session, and spends it. */
    method Refresh(token: nat, g: Grant, now: int) returns (ok: bool)
      requires Unique(sessions)
      modifies this
      ensures ok <==> exists id :: Refreshable(old(sessions), id, token, now)
      ensures if ok then exists id :: Refreshable(old(sessions), id, token, now) && sessions == Rotated(old(sessions), id, g)
              else sessions == old(sessions)
    {
      var found := SessionByRefreshToken(token);
      if found.None? {
        return false;
      }
      var session := sessions[found.value];
      if session.revokedAt.Some? || session.refreshExpiresAt < now {
        return false;
      }
      assert Refreshable(sessions, found.value, token, now);
      ok := RotateSession(found.value, session.refresh, g);
    }
  }

  // ---------------------------------------------------------------- interleaved clients

  /** A refresh between its read and its rotation. */
  datatype Request = Request(session: nat, token: nat)

  /** consumed lists each successful rotation: the token it spent and the request that spent it. */
  datatype World = World(sessions: Table, pending: map<nat, Request>, issued: nat, consumed: seq<(nat, nat)>)

  datatype Step =
    | Login(session: nat, expiresAt: int, refreshExpiresAt: int)
    | Read(request: nat, session: nat, token: nat, now: int)
    | Rotate(request: nat, expiresAt: int, refreshExpiresAt: int)
    | Revoke(session: nat, at: int)
    | Drop(request: nat)

  function Next(w: World, step: Step): World {
    match step
    case Login(session, expiresAt, refreshExpiresAt) =>
      if session in w.sessions then w
      else w.(sessions := w.sessions[session := Session(w.issued, w.issued + 1, expiresAt, refreshExpiresAt, None)],
              issued := w.issued + 2)
    case Read(request, session, token, now) =>
      if request in w.pending || !Refreshable(w.sessions, session, token, now) then w
      else w.(pending := w.pending[request := Request(session, token)])
    case Rotate(request, expiresAt, refreshExpiresAt) =>
      if request !in w.pending then w
      else
        var Request(session, token) := w.pending[request];
        var rest := w.(pending := w.pending - {request}, issued := w.issued + 2);
        if !CanRotate(w.sessions, session, token) then rest
        else rest.(sessions := Rotated(w.sessions, session, Grant(w.issued, w.issued + 1, expiresAt, refreshExpiresAt)),
                   consumed := w.consumed + [(token, request)])
    case Revoke(session, at) =>
      w.(sessions := Revoked(w.sessions, session, at))
    case Drop(request) =>
      w.(pending := w.pending - {request})
  }

  predicate Spent(w: World, token: nat) {
    exists i :: 0 <= i < |w.consumed| && w.consumed[i].0 == token
  }

  /** Tokens are below the counter and belong to one session, and a spent token is no session's current one. */
  ghost predicate GoodSessions(w: World) {
    (forall i :: i in w.sessions ==> w.sessions[i].refresh < w.issued && w.sessions[i].access < w.issued) &&
    (forall i :: i in w.sessions ==> !Spent(w, w.sessions[i].refresh)) &&
    (forall i, j :: i in w.sessions && j in w.sessions && i != j ==> w.sessions[i].refresh != w.sessions[j].refresh) &&
    (forall i, j :: i in w.sessions && j in w.sessions && i != j ==> w.sessions[i].access != w.sessions[j].access)
  }

  ghost predicate GoodConsumed(w: World) {
    (forall i :: 0 <= i < |w.consumed| ==> w.consumed[i].0 < w.issued) &&
    (forall i, j :: 0 <= i < j < |w.consumed| ==> w.consumed[i].0 != w.consumed[j].0)
  }

  /** A pending request's token is either still its session's current one or already spent. */
  ghost predicate GoodPending(w: World) {
    forall r :: r in w.pending ==> w.pending[r].session in w.sessions && CurrentOrSpent(w, w.pending[r])
  }

  predicate CurrentOrSpent(w: World, q: Request)
    requires q.session in w.sessions
  {
    w.sessions[q.session].refresh == q.token || Spent(w, q.token)
  }

  ghost predicate Good(w: World) {
    GoodSessions(w) && GoodConsumed(w) && GoodPending(w)
  }

  const START: World := World(map[], map[], 0, [])

  function RunOf(steps: seq<Step>): World {
    if steps == [] then START else Next(RunOf(steps[..|steps| - 1]), steps[|steps| - 1])
  }

  lemma {:induction false} OneMoreSpent(w: World, w': World, token: nat, request: nat)
    requires w'.consumed == w.consumed + [(token, request)]
    ensures forall t :: Spent(w', t) <==> Spent(w, t) || t == token
  {
    forall t ensures Spent(w', t) <==> Spent(w, t) || t == token {
      if Spent(w, t) {
        var i :| 0 <= i < |w.consumed| && w.consumed[i].0 == t;
        assert w'.consumed[i].0 == t;
      }
      assert w'.consumed[|w.consumed|].0 == token;
    }
  }

  predicate SameTokens(w: World, w': World) {
    w'.sessions.Keys == w.sessions.Keys &&
    forall i :: i in w.sessions ==> w'.sessions[i].refresh == w.sessions[i].refresh && w'.sessions[i].access == w.sessions[i].access
  }

  lemma {:induction false} SameTokensStayGood(w: World, w': World)
    requires GoodSessions(w) && GoodConsumed(w) && SameTokens(w, w') && w.issued <= w'.issued && w'.consumed == w.consumed
    ensures GoodSessions(w') && GoodConsumed(w')
  {
    forall i | i in w'.sessions ensures !Spent(w', w'.sessions[i].refresh) {
      assert !Spent(w, w.sessions[i].refresh);
    }
  }

  /** The request was pending before, or has just read its session's current token. */
  predicate OldOrCurrent(w: World, r: nat, q: Request) {
    (r in w.pending && w.pending[r] == q) || (q.session in w.sessions && w.sessions[q.session].refresh == q.token)
  }

  lemma {:induction false} FewerPendingStayGood(w: World, w': World)
    requires GoodPending(w) && SameTokens(w, w') && w'.consumed == w.consumed
    requires forall r :: r in w'.pending ==> OldOrCurrent(w, r, w'.pending[r])
    ensures GoodPending(w')
  {
    forall r | r in w'.pending ensures w'.pending[r].session in w'.sessions && CurrentOrSpent(w', w'.pending[r]) {
      if r in w.pending && w'.pending[r] == w.pending[r] {
        assert CurrentOrSpent(w, w.pending[r]);
        assert Spent(w', w.pending[r].token) <==> Spent(w, w.pending[r].token);
      }
    }
  }

  /** One session gets the next two tokens: a new session, or one whose old token has just been spent. */
  predicate GetsFreshTokens(w: World, w': World, session: nat) {
    w'.issued == w.issued + 2 && w'.sessions.Keys == w.sessions.Keys + {session} &&
    w'.sessions[session].access == w.issued && w'.sessions[session].refresh == w.issued + 1 &&
    forall i :: i in w.sessions && i != session ==> w'.sessions[i] == w.sessions[i]
  }

  lemma {:induction false} FreshTokensAreIssued(w: World, w': World, session: nat)
    requires GoodSessions(w) && GetsFreshTokens(w, w', session)
    ensures forall i :: i in w'.sessions ==> w'.sessions[i].refresh < w'.issued && w'.sessions[i].access < w'.issued
  {
  }

  lemma {:induction false} FreshTokensAreUnspent(w: World, w': World, session: nat)
    requires GoodSessions(w) && GetsFreshTokens(w, w', session) && !Spent(w, w.issued + 1)
    requires forall t :: Spent(w', t) <==> Spent(w, t) || (session in w.sessions && t == w.sessions[session].refresh)
    ensures forall i :: i in w'.sessions ==> !Spent(w', w'.sessions[i].refresh)
  {
    forall i | i in w'.sessions ensures !Spent(w', w'.sessions[i].refresh) {
      if i != session { assert !Spent(w, w.sessions[i].refresh); }
    }
  }

  lemma {:induction false} FreshTokensAreDistinct(w: World, w': World, session: nat)
    requires GoodSessions(w) && GetsFreshTokens(w, w', session)
    ensures forall i, j :: i in w'.sessions && j in w'.sessions && i != j ==> w'.sessions[i].refresh != w'.sessions[j].refresh
    ensures forall i, j :: i in w'.sessions && j in w'.sessions && i != j ==> w'.sessions[i].access != w'.sessions[j].access
  {
    forall i, j | i in w'.sessions && j in w'.sessions && i != j
      ensures w'.sessions[i].refresh != w'.sessions[j].refresh && w'.sessions[i].access != w'.sessions[j].access
    {
      if i != session && j != session {
        assert w.sessions[i].refresh != w.sessions[j].refresh && w.sessions[i].access != w.sessions[j].access;
      }
    }
  }

  lemma {:induction false} FreshTokensStayGood(w: World, w': World, session: nat)
    requires GoodSessions(w) && GetsFreshTokens(w, w', session) && !Spent(w, w.issued + 1)
    requires forall t :: Spent(w', t) <==> Spent(w, t) || (session in w.sessions && t == w.sessions[session].refresh)
    ensures GoodSessions(w')
  {
    FreshTokensAreIssued(w, w', session);
    FreshTokensAreUnspent(w, w', session);
    FreshTokensAreDistinct(w, w', session);
  }

  lemma {:induction false} NotYetSpent(w: World, token: nat)
    requires GoodConsumed(w) && token >= w.issued
    ensures !Spent(w, token)
  {
  }

  predicate NoNewPending(w: World, w': World) {
    forall r :: r in w'.pending ==> r in w.pending && w'.pending[r] == w.pending[r]
  }

  lemma {:induction false} RotationShape(w: World, request: nat, expiresAt: int, refreshExpiresAt: int)
    requires request in w.pending && CanRotate(w.sessions, w.pending[request].session, w.pending[request].token)
    ensures var w', q := Next(w, Rotate(request, expiresAt, refreshExpiresAt)), w.pending[request];
            GetsFreshTokens(w, w', q.session) && NoNewPending(w, w') && w'.sessions.Keys == w.sessions.Keys &&
            w'.consumed == w.consumed + [(q.token, request)] && q.token == w.sessions[q.session].refresh
  {
  }

  lemma {:induction false} RotationKeepsGood(w: World, request: nat, expiresAt: int, refreshExpiresAt: int)
    requires Good(w) && request in w.pending
    requires CanRotate(w.sessions, w.pending[request].session, w.pending[request].token)
    ensures Good(Next(w, Rotate(request, expiresAt, refreshExpiresAt)))
  {
    RotationShape(w, request, expiresAt, refreshExpiresAt);
    SpendingStaysGood(w, Next(w, Rotate(request, expiresAt, refreshExpiresAt)), w.pending[request].session, request);
  }

  lemma {:induction false} SpendingStaysGood(w: World, w': World, session: nat, request: nat)
    requires Good(w) && session in w.sessions && GetsFreshTokens(w, w', session) && NoNewPending(w, w')
    requires w'.consumed == w.consumed + [(w.sessions[session].refresh, request)]
    ensures Good(w')
  {
    OneMoreSpent(w, w', w.sessions[session].refresh, request);
    NotYetSpent(w, w.issued + 1);
    FreshTokensStayGood(w, w', session);
    OneMoreConsumed(w, w', w.sessions[session].refresh, request);
    RotationKeepsPending(w, w', session);
  }

  lemma {:induction false} OneMoreConsumed(w: World, w': World, token: nat, request: nat)
    requires GoodConsumed(w) && w'.consumed == w.consumed + [(token, request)] && w.issued <= w'.issued
    requires token < w.issued && !Spent(w, token)
    ensures GoodConsumed(w')
  {
    forall i | 0 <= i < |w.consumed| ensures w'.consumed[i].0 != token {
      assert w.consumed[i] == w'.consumed[i];
    }
  }

  lemma {:induction false} RotationKeepsPending(w: World, w': World, session: nat)
    requires GoodPending(w) && session in w.sessions && GetsFreshTokens(w, w', session) && NoNewPending(w, w')
    requires forall t :: Spent(w', t) <==> Spent(w, t) || t == w.sessions[session].refresh
    ensures GoodPending(w')
  {
    forall r | r in w'.pending ensures w'.pending[r].session in w'.sessions && CurrentOrSpent(w', w'.pending[r]) {
      assert CurrentOrSpent(w, w.pending[r]);
    }
  }

  lemma {:induction false} LoginShape(w: World, step: Step)
    requires step.Login? && step.session !in w.sessions
    ensures var w' := Next(w, step);
            GetsFreshTokens(w, w', step.session) && w'.pending == w.pending && w'.consumed == w.consumed
  {
  }

  lemma {:induction false} LoginKeepsGood(w: World, step: Step)
    requires Good(w) && step.Login? && step.session !in w.sessions
    ensures Good(Next(w, step))
  {
    LoginShape(w, step);
    NewSessionStaysGood(w, Next(w, step), step.session);
  }

  lemma {:induction false} NewSessionStaysGood(w: World, w': World, session: nat)
    requires Good(w) && session !in w.sessions && GetsFreshTokens(w, w', session)
    requires w'.pending == w.pending && w'.consumed == w.consumed
    ensures Good(w')
  {
    assert forall t :: Spent(w', t) <==> Spent(w, t);
    NotYetSpent(w, w.issued + 1);
    FreshTokensStayGood(w, w', session);
    forall r | r in w'.pending ensures w'.pending[r].session in w'.sessions && CurrentOrSpent(w', w'.pending[r]) {
      assert CurrentOrSpent(w, w.pending[r]);
    }
  }

  predicate Rotates(w: World, step: Step) {
    step.Rotate? && step.request in w.pending && CanRotate(w.sessions, w.pending[step.request].session, w.pending[step.request].token)
  }

  lemma {:induction false} QuietStep(w: World, step: Step)
    requires !Rotates(w, step) && (step.Login? ==> step.session in w.sessions)
    ensures var w' := Next(w, step);
            SameTokens(w, w') && w.issued <= w'.issued && w'.consumed == w.consumed &&
            forall r :: r in w'.pending ==> OldOrCurrent(w, r, w'.pending[r])
  {
  }

  lemma {:induction false} StepKeepsGood(w: World, step: Step)
    requires Good(w)
    ensures Good(Next(w, step))
  {
    if Rotates(w, step) {
      RotationKeepsGood(w, step.request, step.expiresAt, step.refreshExpiresAt);
    } else if step.Login? && step.session !in w.sessions {
      LoginKeepsGood(w, step);
    } else {
      QuietStep(w, step);
      SameTokensStayGood(w, Next(w, step));
      FewerPendingStayGood(w, Next(w, step));
    }
  }

  lemma {:induction false} EveryRunIsGood(steps: seq<Step>)
    ensures Good(RunOf(steps))
  {
    if steps != [] {
      EveryRunIsGood(steps[..|steps| - 1]);
      StepKeepsGood(RunOf(steps[..|steps| - 1]), steps[|steps| - 1]);
    }
  }

  /** Each refresh token is spent by at most one rotation, however many clients have read it. */
  lemma {:induction false} SpentAtMostOnce(steps: seq<Step>, i: nat, j: nat)
    requires i < |RunOf(steps).consumed| && j < |RunOf(steps).consumed|
    requires RunOf(steps).consumed[i].0 == RunOf(steps).consumed[j].0
    ensures i == j
  {
    EveryRunIsGood(steps);
  }

  /** When a reader reaches its rotation and the session is not revoked, the token is spent afterwards: by this reader
      if it still was the current one, else by another one before. So of all readers of a token exactly one wins. */
  lemma {:induction false} RotationSpends(steps: seq<Step>, request: nat, expiresAt: int, refreshExpiresAt: int)
    requires var w := RunOf(steps); request in w.pending && w.pending[request].session in w.sessions &&
                                    w.sessions[w.pending[request].session].revokedAt.None?
    ensures var w := RunOf(steps);
            var w' := Next(w, Rotate(request, expiresAt, refreshExpiresAt));
            var token := w.pending[request].token;
            Spent(w', token) && (!Spent(w, token) ==> w'.consumed == w.consumed + [(token, request)])
  {
    EveryRunIsGood(steps);
    var w := RunOf(steps);
    var w' := Next(w, Rotate(request, expiresAt, refreshExpiresAt));
    var Request(session, token) := w.pending[request];
    if CanRotate(w.sessions, session, token) { OneMoreSpent(w, w', token, request); }
  }

  predicate IsRevoked(w: World, session: nat, row: Session) {
    session in w.sessions && w.sessions[session] == row && row.revokedAt.Some?
  }

  lemma {:induction false} RevokedStays(w: World, step: Step, session: nat, row: Session)
    requires IsRevoked(w, session, row)
    ensures IsRevoked(Next(w, step), session, row)
  {
  }

  /** After a revocation nothing succeeds on the session any more: it stays as it is, and no reader spends its token. */
  lemma {:induction false} RevokedIsFinal(steps: seq<Step>, more: seq<Step>, session: nat, row: Session)
    requires IsRevoked(RunOf(steps), session, row)
    ensures IsRevoked(RunOf(steps + more), session, row) && !Spent(RunOf(steps + more), row.refresh)
  {
    if more == [] {
      assert steps + more == steps;
    } else {
      RevokedIsFinal(steps, more[..|more| - 1], session, row);
      assert (steps + more)[..|steps + more| - 1] == steps + more[..|more| - 1];
      RevokedStays(RunOf(steps + more[..|more| - 1]), more[|more| - 1], session, row);
    }
    EveryRunIsGood(steps + more);
  }

  // ---------------------------------------------------------------- access tokens

  predicate Authenticates(t: Table, token: nat, now: int) {
    exists id :: id in t && t[id].access == token && t[id].revokedAt.None? && t[id].expiresAt >= now
  }

  /** A rotation hands the session over to the new tokens: its access token authenticates until the one end, its refresh token is
      good until the other, and no other refresh token of the session is. Nobody else's session changes. */
  lemma {:induction false} GrantWorks(t: Table, id: nat, g: Grant, token: nat, now: int)
    requires id in t && t[id].revokedAt.None? && forall i :: i in t && i != id ==> t[i].access != g.access
    ensures Authenticates(Rotated(t, id, g), g.access, now) <==> now <= g.expiresAt
    ensures Refreshable(Rotated(t, id, g), id, token, now) <==> token == g.refresh && now <= g.refreshExpiresAt
    ensures forall i :: i != id ==> (i in Rotated(t, id, g) <==> i in t) && (i in t ==> Rotated(t, id, g)[i] == t[i])
  {
    assert Rotated(t, id, g)[id].access == g.access;
  }

  /** So the winning rotation issues two new tokens, and they are good until the two ends it was given. */
  lemma {:induction false} RotationGrants(steps: seq<Step>, request: nat, expiresAt: int, refreshExpiresAt: int, token: nat, now: int)
    requires var w := RunOf(steps); request in w.pending && CanRotate(w.sessions, w.pending[request].session, w.pending[request].token)
    ensures var w := RunOf(steps);
            var t, id := Next(w, Rotate(request, expiresAt, refreshExpiresAt)).sessions, w.pending[request].session;
            id in t && (Authenticates(t, t[id].access, now) <==> now <= expiresAt) &&
            (Refreshable(t, id, token, now) <==> token == t[id].refresh && now <= refreshExpiresAt) && t - {id} == w.sessions - {id} &&
            t[id].access != w.sessions[id].access && t[id].refresh != w.sessions[id].refresh
  {
    EveryRunIsGood(steps);
    var w := RunOf(steps);
    var id := w.pending[request].session;
    GrantWorks(w.sessions, id, Grant(w.issued, w.issued + 1, expiresAt, refreshExpiresAt), token, now);
  }

  /** A reader remembers the session and the token it has read, if the token is good at that time. */
  lemma {:induction false} ReadRemembers(w: World, request: nat, session: nat, token: nat, now: int)
    requires request !in w.pending
    ensures var w' := Next(w, Read(request, session, token, now));
            w'.sessions == w.sessions && w'.consumed == w.consumed && w'.pending - {request} == w.pending &&
            (request in w'.pending <==> session in w.sessions && w.sessions[session].revokedAt.None? &&
                                        w.sessions[session].refresh == token && now <= w.sessions[session].refreshExpiresAt) &&
            (request in w'.pending ==> w'.pending[request] == Request(session, token))
  {
  }

  /** A login does the same for a new session. */
  lemma {:induction false} LoginWorks(steps: seq<Step>, id: nat, expiresAt: int, refreshExpiresAt: int, token: nat, now: int)
    requires id !in RunOf(steps).sessions
    ensures var w := RunOf(steps);
            var t := Next(w, Login(id, expiresAt, refreshExpiresAt)).sessions;
            id in t && (Authenticates(t, t[id].access, now) <==> now <= expiresAt) &&
            (Refreshable(t, id, token, now) <==> token == t[id].refresh && now <= refreshExpiresAt) && t - {id} == w.sessions
  {
    EveryRunIsGood(steps);
    var w := RunOf(steps);
    var t := Next(w, Login(id, expiresAt, refreshExpiresAt)).sessions;
    assert t[id].access == w.issued;
    assert forall i :: i in t && i != id ==> t[i].access != w.issued;
  }

  /** Once rotated away, an access token authenticates nobody, at any later time of the run. */
  lemma {:induction false} RotatedAccessDies(steps: seq<Step>, request: nat, expiresAt: int, refreshExpiresAt: int, more: seq<Step>, now: int)
    requires var w := RunOf(steps); request in w.pending && CanRotate(w.sessions, w.pending[request].session, w.pending[request].token)
    ensures var w := RunOf(steps);
            var access := w.sessions[w.pending[request].session].access;
            !Authenticates(RunOf(steps + [Rotate(request, expiresAt, refreshExpiresAt)] + more).sessions, access, now)
  {
    var w, step := RunOf(steps), Rotate(request, expiresAt, refreshExpiresAt);
    EveryRunIsGood(steps);
    assert (steps + [step])[..|steps|] == steps;
    StaysAbsent(steps + [step], more, w.sessions[w.pending[request].session].access);
  }

  predicate IsAbsent(w: World, access: nat) {
    access < w.issued && forall id :: id in w.sessions ==> w.sessions[id].access != access
  }

  lemma {:induction false} StepKeepsAbsent(w: World, step: Step, access: nat)
    requires IsAbsent(w, access)
    ensures IsAbsent(Next(w, step), access)
  {
  }

  lemma {:induction false} StaysAbsent(steps: seq<Step>, more: seq<Step>, access: nat)
    requires IsAbsent(RunOf(steps), access)
    ensures IsAbsent(RunOf(steps + more), access)
  {
    if more == [] {
      assert steps + more == steps;
    } else {
      StaysAbsent(steps, more[..|more| - 1], access);
      assert (steps + more)[..|steps + more| - 1] == steps + more[..|more| - 1];
      StepKeepsAbsent(RunOf(steps + more[..|more| - 1]), more[|more| - 1], access);
    }
  }
}
