/** Refresh-token rotation (auth/tokens.js, and the /login, /refresh and /logout steps of api/auth.js).
    A token is named by its row id; ids are handed out in creation order. Each refresh is one step. */
module Tokens {
  import opened Common

  type Id = nat
  type User = string

  datatype Token = Token(user: User, expiresAt: int, revoked: bool, rotatedTo: Option<Id>)

  /** The `refresh_tokens` table and the next id to hand out. */
  datatype Db = Db(rows: map<Id, Token>, next: Id)

  datatype Refusal = InvalidToken | UserNotAvailable

  predicate Active(db: Db, t: Id) { t in db.rows && !db.rows[t].revoked && db.rows[t].rotatedTo == None }

  /** `consumeRefreshToken` accepts the token at time `now`. */
  predicate Consumable(db: Db, t: Id, now: int) { Active(db, t) && db.rows[t].expiresAt >= now }

  // ---- row transitions ------------------------------------------------------------

  function Issue(db: Db, user: User, expiresAt: int, predecessor: Option<Id>): Db {
    var rows := db.rows[db.next := Token(user, expiresAt, false, None)];
    if predecessor.Some? && predecessor.value in rows && !rows[predecessor.value].revoked
       && predecessor.value != db.next
    then
      var p := predecessor.value;
      Db(rows[p := rows[p].(revoked := true, rotatedTo := Some(db.next))], db.next + 1)
    else Db(rows, db.next + 1)
  }

  function RevokeUser(db: Db, user: User): Db {
    db.(rows := map t | t in db.rows :: if db.rows[t].user == user then db.rows[t].(revoked := true) else db.rows[t])
  }

  /** The tokens of `user` that are not revoked. */
  function Unrevoked(db: Db, user: User): set<Id> {
    set t | t in db.rows && db.rows[t].user == user && !db.rows[t].revoked
  }

  function RevokeOne(db: Db, t: Id): Db {
    if t in db.rows then db.(rows := db.rows[t := db.rows[t].(revoked := true)]) else db
  }

  function Rotated(db: Db, t: Id): bool { t in db.rows && db.rows[t].rotatedTo.Some? }

  /** Presenting a token that was already rotated burns every token of its user. */
  function AfterConsume(db: Db, t: Id): Db {
    if Rotated(db, t) then RevokeUser(db, db.rows[t].user) else db
  }

  /** Deleting rows nulls the `rotated_to` pointers to them. */
  function Delete(db: Db, ids: set<Id>): Db {
    db.(rows := map t | t in db.rows && t !in ids ::
      if db.rows[t].rotatedTo.Some? && db.rows[t].rotatedTo.value in ids then db.rows[t].(rotatedTo := None)
      else db.rows[t])
  }

  function AfterRefresh(db: Db, t: Id, now: int, ttl: nat, userActive: bool): Db {
    if !Consumable(db, t, now) then AfterConsume(db, t)
    else if !userActive then db
    else Issue(db, db.rows[t].user, now + ttl, Some(t))
  }

  // ---- what the transitions do to the table, said outright ------------------------------

  /** `id` is a new unrevoked token of the user; an unrevoked predecessor is revoked and linked to it, and
      every other row stays. */
  ghost predicate NewToken(
    was: map<Id, Token>, rows: map<Id, Token>, id: Id, user: User, expiresAt: int, predecessor: Option<Id>)
  {
    && id in rows && rows[id] == Token(user, expiresAt, false, None)
    && forall t :: t != id ==>
         if predecessor == Some(t) && t in was && !was[t].revoked
         then t in rows && rows[t] == was[t].(revoked := true, rotatedTo := Some(id))
         else SameAt(rows, was, t)
  }

  /** Every token of the user is revoked, and that is all that changes. */
  ghost predicate Burned(was: map<Id, Token>, rows: map<Id, Token>, user: User) {
    rows.Keys == was.Keys
    && forall t :: t in was ==> rows[t] == if was[t].user == user then was[t].(revoked := true) else was[t]
  }

  ghost predicate TokenRevoked(was: map<Id, Token>, rows: map<Id, Token>, t: Id) {
    && (forall u :: u != t ==> SameAt(rows, was, u))
    && (if t in was then t in rows && rows[t] == was[t].(revoked := true) else t !in rows)
  }

  /** After deleting rows the others stand, and no link points to a deleted one. */
  lemma DeletedRows(db: Db, ids: set<Id>)
    ensures var rows := Delete(db, ids).rows;
            && Delete(db, ids).next == db.next && rows.Keys == db.rows.Keys - ids
            && forall t :: t in rows ==>
                 && rows[t].user == db.rows[t].user && rows[t].expiresAt == db.rows[t].expiresAt
                 && rows[t].revoked == db.rows[t].revoked
                 && match db.rows[t].rotatedTo {
                      case Some(u) => rows[t].rotatedTo == if u in ids then None else Some(u)
                      case None => rows[t].rotatedTo == None
                    }
  {
  }

  class TokenStore {
    var rows: map<Id, Token>
    var next: Id
    const ttl: nat

    constructor (ttl: nat)
      ensures View() == Db(map[], 0) && this.ttl == ttl
    {
      rows, next, this.ttl := map[], 0, ttl;
    }

    ghost function View(): Db
      reads this
    {
      Db(rows, next)
    }

    method IssueRefreshToken(user: User, now: int, predecessor: Option<Id>) returns (id: Id)
      requires predecessor.Some? ==> predecessor.value != next
      modifies `rows, `next
      ensures id == old(next) && View() == Issue(old(View()), user, now + ttl, predecessor)
      ensures next == id + 1 && NewToken(old(rows), rows, id, user, now + ttl, predecessor)
    {
      id := next;
      next := next + 1;
      rows := rows[id := Token(user, now + ttl, false, None)];
      if predecessor.Some? {
        var p := predecessor.value;
        if p in rows && !rows[p].revoked {
          rows := rows[p := rows[p].(revoked := true, rotatedTo := Some(id))];
        }
      }
    }

    /** Afterwards no token of the user is active and everyone else's are untouched; the count is that of
        the tokens that were still unrevoked. */
    method RevokeAllForUser(user: User) returns (revoked: nat)
      modifies `rows
      ensures View() == RevokeUser(old(View()), user)
      ensures revoked == |Unrevoked(old(View()), user)| && Unrevoked(View(), user) == {}
      ensures Burned(old(rows), rows, user)
    {
      var active := set t | t in rows && rows[t].user == user && !rows[t].revoked;
      assert active == Unrevoked(View(), user);
      revoked := |active|;
      rows := map t | t in rows :: if rows[t].user == user then rows[t].(revoked := true) else rows[t];
    }

    method ConsumeRefreshToken(t: Id, now: int) returns (user: Option<User>)
      modifies `rows
      ensures user.Some? <==> Consumable(old(View()), t, now)
      ensures user.Some? <==>
                && t in old(rows) && !old(rows)[t].revoked && old(rows)[t].rotatedTo == None
                && now <= old(rows)[t].expiresAt
      ensures user.Some? ==> user.value == old(rows)[t].user
      ensures View() == AfterConsume(old(View()), t)
      ensures if t in old(rows) && old(rows)[t].rotatedTo.Some? then Burned(old(rows), rows, old(rows)[t].user)
              else rows == old(rows)
    {
      if t !in rows {
        return None;
      }
      if rows[t].rotatedTo.Some? {
        var _ := RevokeAllForUser(rows[t].user);
        return None;
      }
      if rows[t].revoked || rows[t].expiresAt < now {
        return None;
      }
      return Some(rows[t].user);
    }

    method RevokeRefreshToken(t: Id) returns (revoked: bool)
      modifies `rows
      ensures revoked <==> t in old(rows) && !old(rows)[t].revoked
      ensures View() == RevokeOne(old(View()), t) && TokenRevoked(old(rows), rows, t)
    {
      revoked := t in rows && !rows[t].revoked;
      if revoked {
        rows := rows[t := rows[t].(revoked := true)];
      }
    }

    /** POST /auth/login, once the credentials are accepted */
    method Login(user: User, now: int) returns (id: Id)
      modifies `rows, `next
      ensures id == old(next) && View() == Issue(old(View()), user, now + ttl, None)
      ensures NewToken(old(rows), rows, id, user, now + ttl, None)
    {
      id := IssueRefreshToken(user, now, None);
    }

    /** POST /auth/refresh */
    method Refresh(t: Id, now: int, userActive: bool) returns (r: Result<Id, Refusal>)
      requires forall id :: id in rows ==> id < next
      modifies `rows, `next
      ensures View() == AfterRefresh(old(View()), t, now, ttl, userActive)
      ensures r == Err(InvalidToken) <==> !Consumable(old(View()), t, now)
      ensures r.Ok? <==> Consumable(old(View()), t, now) && userActive
      ensures r.Ok? ==> r.value == old(next)
      ensures if r.Ok? then NewToken(old(rows), rows, r.value, old(rows)[t].user, now + ttl, Some(t))
              else if t in old(rows) && old(rows)[t].rotatedTo.Some? then Burned(old(rows), rows, old(rows)[t].user)
              else rows == old(rows)
    {
      var user := ConsumeRefreshToken(t, now);
      if user == None {
        return Err(InvalidToken);
      }
      if !userActive {
        return Err(UserNotAvailable);
      }
      var id := IssueRefreshToken(user.value, now, Some(t));
      return Ok(id);
    }

    /** POST /auth/logout */
    method Logout(t: Id)
      modifies `rows
      ensures View() == RevokeOne(old(View()), t) && TokenRevoked(old(rows), rows, t)
    {
      var _ := RevokeRefreshToken(t);
    }
  }

  // ---- histories -----------------------------------------------------------------------

  datatype Event =
    | Login(user: User, now: int)
    | Refresh(token: Id, at: int, userActive: bool)
    | Logout(out: Id)
    | RevokeAll(who: User)
    | Prune(ids: set<Id>)

  function Step(db: Db, e: Event, ttl: nat): Db {
    match e
    case Login(user, now) => Issue(db, user, now + ttl, None)
    case Refresh(t, now, userActive) => AfterRefresh(db, t, now, ttl, userActive)
    case Logout(t) => RevokeOne(db, t)
    case RevokeAll(user) => RevokeUser(db, user)
    case Prune(ids) => Delete(db, ids)
  }

  function Run(db: Db, events: seq<Event>, ttl: nat): Db {
    if events == [] then db else Step(Run(db, events[..|events| - 1], ttl), events[|events| - 1], ttl)
  }

  /** Rotation links lead from a revoked token to a later token of the same user, and no token is the
      target of two links. */
  ghost predicate ChainsOK(db: Db) {
    && (forall t :: t in db.rows ==> t < db.next)
    && (forall t :: t in db.rows && db.rows[t].rotatedTo.Some? ==> LinkOK(db, t))
    && (forall a, b :: a in db.rows && b in db.rows && SameTarget(db, a, b) ==> a == b)
  }

  predicate SameTarget(db: Db, a: Id, b: Id)
    requires a in db.rows && b in db.rows
  {
    db.rows[a].rotatedTo.Some? && db.rows[a].rotatedTo == db.rows[b].rotatedTo
  }

  ghost predicate LinkOK(db: Db, t: Id)
    requires t in db.rows && db.rows[t].rotatedTo.Some?
  {
    var u := db.rows[t].rotatedTo.value;
    t < u && u in db.rows && db.rows[u].user == db.rows[t].user && db.rows[t].revoked
  }

  lemma IssueKeepsChains(db: Db, user: User, expiresAt: int, predecessor: Option<Id>)
    requires ChainsOK(db)
    requires predecessor.Some? ==> Active(db, predecessor.value) && db.rows[predecessor.value].user == user
    ensures ChainsOK(Issue(db, user, expiresAt, predecessor))
  {
    var db' := Issue(db, user, expiresAt, predecessor);
    forall t | t in db'.rows && db'.rows[t].rotatedTo.Some?
      ensures LinkOK(db', t)
    {
      assert t in db.rows;
      assert db.rows[t].rotatedTo.Some? ==> LinkOK(db, t);
    }
    forall a, b | a in db'.rows && b in db'.rows && SameTarget(db', a, b)
      ensures a == b
    {
      assert db.rows[a].rotatedTo.Some? ==> LinkOK(db, a);
      assert db.rows[b].rotatedTo.Some? ==> LinkOK(db, b);
      assert db.rows[a].rotatedTo.Some? && db.rows[b].rotatedTo.Some? ==> SameTarget(db, a, b);
    }
  }

  /** Revoking tokens, or deleting rows and the links to them, adds no link. */
  lemma ShrinkKeepsChains(db: Db, db': Db)
    requires ChainsOK(db) && db'.next == db.next
    requires forall t :: t in db'.rows ==> LinkKept(db, db', t)
    ensures ChainsOK(db')
  {
    forall t | t in db'.rows && db'.rows[t].rotatedTo.Some?
      ensures LinkOK(db', t)
    {
      assert LinkKept(db, db', t);
      assert LinkOK(db, t);
      assert LinkKept(db, db', db'.rows[t].rotatedTo.value);
    }
    forall a, b | a in db'.rows && b in db'.rows && SameTarget(db', a, b)
      ensures a == b
    {
      assert LinkKept(db, db', a) && LinkKept(db, db', b);
      assert SameTarget(db, a, b);
    }
  }

  predicate LinkKept(db: Db, db': Db, t: Id)
    requires t in db'.rows
  {
    && t in db.rows && db'.rows[t].user == db.rows[t].user
    && (db.rows[t].revoked ==> db'.rows[t].revoked)
    && (db'.rows[t].rotatedTo.Some? ==>
          db'.rows[t].rotatedTo == db.rows[t].rotatedTo && db'.rows[t].rotatedTo.value in db'.rows)
  }

  lemma StepKeepsChains(db: Db, e: Event, ttl: nat)
    requires ChainsOK(db)
    ensures ChainsOK(Step(db, e, ttl))
  {
    if e.Login? {
      IssueKeepsChains(db, e.user, e.now + ttl, None);
    } else if e.Refresh? && Consumable(db, e.token, e.at) && e.userActive {
      IssueKeepsChains(db, db.rows[e.token].user, e.at + ttl, Some(e.token));
    } else {
      var db' := Step(db, e, ttl);
      forall t | t in db'.rows
        ensures LinkKept(db, db', t)
      {
        assert t in db.rows && db.rows[t].rotatedTo.Some? ==> LinkOK(db, t);
      }
      ShrinkKeepsChains(db, db');
    }
  }

  lemma {:induction false} ChainsAlways(events: seq<Event>, ttl: nat)
    ensures ChainsOK(Run(Db(map[], 0), events, ttl))
  {
    if events != [] {
      ChainsAlways(events[..|events| - 1], ttl);
      StepKeepsChains(Run(Db(map[], 0), events[..|events| - 1], ttl), events[|events| - 1], ttl);
    }
  }

  // ---- chains ------------------------------------------------------------------------------

  /** Following `k` rotation links from `a` leads to `b`. */
  ghost predicate Leads(db: Db, a: Id, b: Id, k: nat)
    decreases k
  {
    if k == 0 then a == b
    else a in db.rows && db.rows[a].rotatedTo.Some? && Leads(db, db.rows[a].rotatedTo.value, b, k - 1)
  }

  ghost predicate SameChain(db: Db, a: Id, b: Id) {
    (exists k :: Leads(db, a, b, k)) || (exists k :: Leads(db, b, a, k))
  }

  lemma {:induction false} LeadsForward(db: Db, a: Id, b: Id, k: nat)
    requires ChainsOK(db) && Leads(db, a, b, k)
    ensures k > 0 ==> a < b
    decreases k
  {
    if k > 0 {
      assert LinkOK(db, a);
      LeadsForward(db, db.rows[a].rotatedTo.value, b, k - 1);
    }
  }

  /** Chains are acyclic. */
  lemma NoRotationCycle(db: Db, a: Id, k: nat)
    requires ChainsOK(db) && Leads(db, a, a, k)
    ensures k == 0
  {
    LeadsForward(db, a, a, k);
  }

  lemma {:induction false} LeadsTrans(db: Db, a: Id, b: Id, c: Id, k: nat, l: nat)
    requires Leads(db, a, b, k) && Leads(db, b, c, l)
    ensures Leads(db, a, c, k + l)
    decreases k
  {
    if k > 0 {
      LeadsTrans(db, db.rows[a].rotatedTo.value, b, c, k - 1, l);
    }
  }

  /** Links have one target: two ends reached from one start lie on one chain. */
  lemma {:induction false} Fork(db: Db, a: Id, b: Id, c: Id, k: nat, l: nat)
    requires Leads(db, a, b, k) && Leads(db, a, c, l)
    ensures SameChain(db, b, c)
    decreases k
  {
    if k == 0 || l == 0 {
    } else {
      Fork(db, db.rows[a].rotatedTo.value, b, c, k - 1, l - 1);
    }
  }

  lemma {:induction false} LeadsLast(db: Db, a: Id, c: Id, k: nat) returns (p: Id)
    requires k > 0 && Leads(db, a, c, k)
    ensures Leads(db, a, p, k - 1) && p in db.rows && db.rows[p].rotatedTo == Some(c)
    decreases k
  {
    if k == 1 {
      p := a;
    } else {
      p := LeadsLast(db, db.rows[a].rotatedTo.value, c, k - 1);
    }
  }

  /** Links have one source: two starts that reach one end lie on one chain. */
  lemma {:induction false} Merge(db: Db, a: Id, b: Id, c: Id, k: nat, l: nat)
    requires ChainsOK(db) && Leads(db, a, c, k) && Leads(db, b, c, l)
    ensures SameChain(db, a, b)
    decreases k
  {
    if k == 0 || l == 0 {
    } else {
      var p := LeadsLast(db, a, c, k);
      var q := LeadsLast(db, b, c, l);
      assert p == q;
      Merge(db, a, b, p, k - 1, l - 1);
    }
  }

  /** Chains are disjoint: lying on one chain is an equivalence. */
  lemma ChainsDisjoint(db: Db, a: Id, b: Id, c: Id)
    requires ChainsOK(db) && SameChain(db, a, b) && SameChain(db, b, c)
    ensures SameChain(db, a, c)
  {
    if k :| Leads(db, a, b, k) {
      if l :| Leads(db, b, c, l) {
        LeadsTrans(db, a, b, c, k, l);
      } else {
        var m :| Leads(db, c, b, m);
        Merge(db, a, c, b, k, m);
      }
    } else {
      var k' :| Leads(db, b, a, k');
      if l :| Leads(db, b, c, l) {
        Fork(db, b, a, c, k', l);
      } else {
        var m :| Leads(db, c, b, m);
        LeadsTrans(db, c, b, a, m, k');
      }
    }
  }

  /** After any history, two consumable tokens of one chain are the same token, and a chain belongs
      to one user. */
  lemma OneConsumablePerChain(events: seq<Event>, ttl: nat, a: Id, b: Id, now: int)
    requires var db := Run(Db(map[], 0), events, ttl);
             Consumable(db, a, now) && b in db.rows && SameChain(db, a, b)
    ensures var db := Run(Db(map[], 0), events, ttl);
            db.rows[a].user == db.rows[b].user && (Consumable(db, b, now) ==> a == b)
  {
    var db := Run(Db(map[], 0), events, ttl);
    ChainsAlways(events, ttl);
    if k :| Leads(db, a, b, k) {
      SameUser(db, a, b, k);
    } else {
      var k' :| Leads(db, b, a, k');
      SameUser(db, b, a, k');
    }
  }

  lemma {:induction false} SameUser(db: Db, a: Id, b: Id, k: nat)
    requires ChainsOK(db) && Leads(db, a, b, k) && a in db.rows
    ensures b in db.rows && db.rows[a].user == db.rows[b].user
    decreases k
  {
    if k > 0 {
      assert LinkOK(db, a);
      SameUser(db, db.rows[a].rotatedTo.value, b, k - 1);
    }
  }

  // ---- replay burns the user ---------------------------------------------------------------------

  ghost predicate NoneActive(db: Db, user: User) {
    forall t :: t in db.rows && db.rows[t].user == user ==> db.rows[t].revoked
  }

  lemma StepKeepsNoneActive(db: Db, e: Event, ttl: nat, user: User)
    requires NoneActive(db, user) && ChainsOK(db) && !(e.Login? && e.user == user)
    ensures NoneActive(Step(db, e, ttl), user)
  {
  }

  lemma {:induction false} StillNoneActive(db: Db, events: seq<Event>, ttl: nat, user: User)
    requires NoneActive(db, user) && ChainsOK(db)
    requires forall i :: 0 <= i < |events| ==> !(events[i].Login? && events[i].user == user)
    ensures NoneActive(Run(db, events, ttl), user) && ChainsOK(Run(db, events, ttl))
  {
    if events != [] {
      var k := |events| - 1;
      StillNoneActive(db, events[..k], ttl, user);
      StepKeepsNoneActive(Run(db, events[..k], ttl), events[k], ttl, user);
      StepKeepsChains(Run(db, events[..k], ttl), events[k], ttl);
    }
  }

  /** Theft replay: presenting a token that was already rotated leaves its user without any consumable
      token, whatever happens afterwards, until that user logs in again. */
  lemma ReplayBurnsUntilLogin(
    before: seq<Event>, ttl: nat, t: Id, now: int, active: bool, later: seq<Event>, u: Id, at: int)
    requires var db := Run(Db(map[], 0), before, ttl);
             && Rotated(db, t)
             && forall i :: 0 <= i < |later| ==> !(later[i].Login? && later[i].user == db.rows[t].user)
    ensures var db := Run(Db(map[], 0), before, ttl);
            var end := Run(Step(db, Refresh(t, now, active), ttl), later, ttl);
            Consumable(end, u, at) ==> end.rows[u].user != db.rows[t].user
  {
    var db := Run(Db(map[], 0), before, ttl);
    ChainsAlways(before, ttl);
    StepKeepsChains(db, Refresh(t, now, active), ttl);
    StillNoneActive(Step(db, Refresh(t, now, active), ttl), later, ttl, db.rows[t].user);
  }

  // ---- sessions are conserved -----------------------------------------------------------------------

  function ActiveSet(db: Db, user: User): set<Id> {
    set t | t in db.rows && Active(db, t) && db.rows[t].user == user
  }

  /** A successful refresh swaps exactly one active token for its successor. */
  lemma RefreshSwaps(db: Db, t: Id, now: int, ttl: nat)
    requires ChainsOK(db) && Consumable(db, t, now)
    ensures var db' := AfterRefresh(db, t, now, ttl, true);
            && ActiveSet(db', db.rows[t].user) == ActiveSet(db, db.rows[t].user) - {t} + {db.next}
            && db'.rows[t].rotatedTo == Some(db.next) && t in ActiveSet(db, db.rows[t].user)
            && forall v :: v != db.rows[t].user ==> ActiveSet(db', v) == ActiveSet(db, v)
  {
  }

  ghost function Logins(events: seq<Event>, user: User): nat {
    if events == [] then 0
    else
      var e := events[|events| - 1];
      Logins(events[..|events| - 1], user) + (if e.Login? && e.user == user then 1 else 0)
  }

  /** A user never has more active tokens than logins. */
  lemma {:induction false} SessionsBoundedByLogins(events: seq<Event>, ttl: nat, user: User)
    ensures |ActiveSet(Run(Db(map[], 0), events, ttl), user)| <= Logins(events, user)
  {
    if events != [] {
      var k := |events| - 1;
      var db, e := Run(Db(map[], 0), events[..k], ttl), events[k];
      SessionsBoundedByLogins(events[..k], ttl, user);
      ChainsAlways(events[..k], ttl);
      StepActive(db, e, ttl, user);
    }
  }

  lemma StepActive(db: Db, e: Event, ttl: nat, user: User)
    requires ChainsOK(db)
    ensures |ActiveSet(Step(db, e, ttl), user)|
            <= |ActiveSet(db, user)| + (if e.Login? && e.user == user then 1 else 0)
  {
    var db' := Step(db, e, ttl);
    if e.Login? {
      SubsetSize(ActiveSet(db', user), ActiveSet(db, user) + (if e.user == user then {db.next} else {}));
    } else if e.Refresh? && Consumable(db, e.token, e.at) && e.userActive {
      RefreshSwaps(db, e.token, e.at, ttl);
    } else {
      SubsetSize(ActiveSet(db', user), ActiveSet(db, user));
    }
  }

  // ---- sessions expire ------------------------------------------------------------------------------

  ghost predicate ExpireBy(db: Db, limit: int) { forall t :: t in db.rows ==> db.rows[t].expiresAt <= limit }

  /** The latest login or refresh of a run is no later than `last`. */
  ghost predicate NoneAfter(events: seq<Event>, last: int) {
    forall e :: e in events ==> (e.Login? ==> e.now <= last) && (e.Refresh? ==> e.at <= last)
  }

  lemma StepExpires(db: Db, e: Event, ttl: nat, last: int)
    requires (e.Login? ==> e.now <= last) && (e.Refresh? ==> e.at <= last)
    requires ExpireBy(db, last + ttl)
    ensures ExpireBy(Step(db, e, ttl), last + ttl)
  {
  }

  lemma {:induction false} AllExpire(events: seq<Event>, ttl: nat, last: int)
    requires NoneAfter(events, last)
    ensures ExpireBy(Run(Db(map[], 0), events, ttl), last + ttl)
  {
    if events != [] {
      var k := |events| - 1;
      assert events[k] in events;
      AllExpire(events[..k], ttl, last);
      StepExpires(Run(Db(map[], 0), events[..k], ttl), events[k], ttl, last);
    }
  }

  /** Once a lifetime has passed since the last login or refresh, no token whatever is accepted. */
  lemma SessionsExpire(events: seq<Event>, ttl: nat, last: int, t: Id, at: int)
    requires NoneAfter(events, last) && Consumable(Run(Db(map[], 0), events, ttl), t, at)
    ensures at <= last + ttl
  {
    AllExpire(events, ttl, last);
  }

  /** The step is about this session: its own refresh, logout or deletion, or a revocation of its user, be it
      asked for or because a rotated token of that user was presented. */
  predicate Disturbs(db: Db, e: Event, t: Id)
    requires t in db.rows
  {
    match e
    case Login(_, _) => false
    case Refresh(x, _, _) => x == t || (Rotated(db, x) && db.rows[x].user == db.rows[t].user)
    case Logout(x) => x == t
    case RevokeAll(user) => user == db.rows[t].user
    case Prune(ids) => t in ids
  }

  ghost predicate Undisturbed(db: Db, events: seq<Event>, ttl: nat, t: Id) {
    forall i :: 0 <= i < |events| ==>
      var now := Run(db, events[..i], ttl); t in now.rows ==> !Disturbs(now, events[i], t)
  }

  lemma StepSpares(db: Db, e: Event, ttl: nat, t: Id)
    requires ChainsOK(db) && Active(db, t) && !Disturbs(db, e, t)
    ensures var db' := Step(db, e, ttl); t in db'.rows && db'.rows[t] == db.rows[t]
  {
  }

  /** Nothing else ends a session: through any run of steps that are not about it, whoever else logs in, rotates,
      replays or is revoked, an active token stands as it was, and is accepted until it expires. */
  lemma {:induction false} SessionSurvives(db: Db, events: seq<Event>, ttl: nat, t: Id, at: int)
    requires ChainsOK(db) && Active(db, t) && Undisturbed(db, events, ttl, t)
    ensures var db' := Run(db, events, ttl);
            && ChainsOK(db') && t in db'.rows && db'.rows[t] == db.rows[t]
            && (Consumable(db', t, at) <==> at <= db.rows[t].expiresAt)
  {
    if events != [] {
      var k := |events| - 1;
      var before := events[..k];
      forall i | 0 <= i < k
        ensures before[..i] == events[..i]
      {
      }
      SessionSurvives(db, before, ttl, t, at);
      StepSpares(Run(db, before, ttl), events[k], ttl, t);
      StepKeepsChains(Run(db, before, ttl), events[k], ttl);
    }
  }
}
