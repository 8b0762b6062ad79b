/** Refresh rotation call by call: what interleaved store calls of refreshes, logins, logouts,
    password changes and deletions can still accept. Issues are in distinct seconds throughout, so
    that only the interleaving is at stake. */
module Rotation {
  import opened Tokens

  /** A call between two store calls. `Lost` is a refresh that crashed before its delete. */
  datatype Stage =
    | Found(raw: Token)         // refresh: token found, not yet deleted
    | Deleted(raw: Token)       // refresh: token deleted, user not yet read
    | Missed(userId: string)    // refresh: token not found, user's tokens not yet deleted
    | Issuing(userId: string)   // refresh or login: user read as active, new token not yet inserted
    | Lost(raw: Token)
    | Ended

  datatype Stores = Stores(
    active: set<string>,
    store: set<Token>,
    second: nat,                // no token issued so far carries this second or a later one
    procs: map<nat, Stage>,
    accepted: seq<Token>)

  /** `StartLogin` is a login whose password was right; `StartRefresh` one whose signature was. */
  datatype Action =
    | StartLogin(p: nat, userId: string)
    | StartRefresh(p: nat, raw: Token)
    | Advance(p: nat)
    | Crash(p: nat)
    | DeleteOne(raw: Token)
    | DeleteMany(userId: string)
    | Deactivate(userId: string)

  function Without(store: set<Token>, userId: string): set<Token> {
    store - TokensOf(store, userId)
  }

  function Step(s: Stores, p: nat): Stores
    requires p in s.procs
  {
    match s.procs[p]
    case Found(raw) => s.(store := s.store - {raw}, procs := s.procs[p := Deleted(raw)])
    case Deleted(raw) => s.(procs := s.procs[p := if raw.userId in s.active then Issuing(raw.userId) else Ended])
    case Missed(userId) => s.(store := Without(s.store, userId), procs := s.procs[p := Ended])
    case Issuing(userId) =>
      s.(store := s.store + {Token(userId, s.second)}, second := s.second + 1, procs := s.procs[p := Ended])
    case Lost(_) => s
    case Ended => s
  }

  function Crashed(q: Stage): Stage {
    match q
    case Found(raw) => Lost(raw)
    case Lost(raw) => q
    case _ => Ended
  }

  function Do(s: Stores, a: Action): Stores {
    match a
    case StartLogin(p, userId) => if p in s.procs || userId !in s.active then s else s.(procs := s.procs[p := Issuing(userId)])
    case StartRefresh(p, raw) =>
      if p in s.procs then s
      else if raw !in s.store then s.(procs := s.procs[p := Missed(raw.userId)])
      else s.(procs := s.procs[p := Found(raw)], accepted := s.accepted + [raw])
    case Advance(p) => if p in s.procs then Step(s, p) else s
    case Crash(p) => if p in s.procs then s.(procs := s.procs[p := Crashed(s.procs[p])]) else s
    case DeleteOne(raw) => s.(store := s.store - {raw})
    case DeleteMany(userId) => s.(store := Without(s.store, userId))
    case Deactivate(userId) => s.(active := s.active - {userId})
  }

  function Exec(s: Stores, acts: seq<Action>): Stores
    decreases acts
  {
    if acts == [] then s else Exec(Do(s, acts[0]), acts[1..])
  }

  ghost predicate Init(s: Stores) {
    s.store == {} && s.procs == map[] && s.accepted == []
  }

  // ---------------------------------------------------------------- one acceptance per token

  /** Some refresh stands, or has crashed, between finding `t` and deleting it. */
  ghost predicate Undeleted(s: Stores, t: Token) {
    exists p :: p in s.procs && (s.procs[p] == Found(t) || s.procs[p] == Lost(t))
  }

  ghost predicate Inv(s: Stores) {
    && (forall t <- s.store :: t.iat < s.second)
    && (forall t <- s.accepted :: t.iat < s.second)
    && (forall t <- s.accepted :: t in s.store ==> Undeleted(s, t))
    && (forall p <- s.procs :: s.procs[p].Found? || s.procs[p].Lost? ==> s.procs[p].raw in s.accepted)
  }

  lemma MoveKeepsUndeleted(s: Stores, u: Stores, p: nat, t: Token)
    requires Undeleted(s, t) && p in u.procs && u.procs == s.procs[p := u.procs[p]]
    requires p in s.procs && (s.procs[p] == Found(t) || s.procs[p] == Lost(t)) ==> u.procs[p] == Found(t) || u.procs[p] == Lost(t)
    ensures Undeleted(u, t)
  {
    var q :| q in s.procs && (s.procs[q] == Found(t) || s.procs[q] == Lost(t));
    assert q in u.procs && (u.procs[q] == Found(t) || u.procs[q] == Lost(t));
  }

  lemma InvStep(s: Stores, a: Action)
    requires Inv(s)
    ensures Inv(Do(s, a))
  {
    var u := Do(s, a);
    forall t | t in u.accepted && t in u.store ensures Undeleted(u, t) {
      if a.StartLogin? || a.StartRefresh? || a.Advance? || a.Crash? {
        if u != s {
          if a.StartRefresh? && a.raw == t {
            assert u.procs[a.p] == Found(t) || !(t in s.store);
          } else {
            assert t in s.accepted && t in s.store;
            MoveKeepsUndeleted(s, u, a.p, t);
          }
        }
      } else {
        var p :| p in s.procs && (s.procs[p] == Found(t) || s.procs[p] == Lost(t));
        assert u.procs[p] == s.procs[p];
      }
    }
  }

  ghost predicate Once(accepted: seq<Token>) {
    forall i, j :: 0 <= i < j < |accepted| ==> accepted[i] != accepted[j]
  }

  /** The step finds a token that another refresh has found and not deleted. */
  ghost predicate Overlaps(s: Stores, a: Action) {
    a.StartRefresh? && a.p !in s.procs && a.raw in s.store && Undeleted(s, a.raw)
  }

  /** A step makes some token accepted twice exactly when it starts a refresh on a token that an
      earlier refresh has found and not yet deleted. */
  lemma OnceStep(s: Stores, a: Action)
    requires Inv(s) && Once(s.accepted)
    ensures Once(Do(s, a).accepted) <==> !Overlaps(s, a)
  {
    var u := Do(s, a);
    if Overlaps(s, a) {
      var p :| p in s.procs && (s.procs[p] == Found(a.raw) || s.procs[p] == Lost(a.raw));
      var i :| 0 <= i < |s.accepted| && s.accepted[i] == a.raw;
      assert u.accepted[i] == u.accepted[|s.accepted|];
    } else if u.accepted != s.accepted {
      assert a.raw !in s.accepted;
    }
  }

  ghost predicate NoOverlaps(s: Stores, acts: seq<Action>)
    decreases acts
  {
    acts == [] || (!Overlaps(s, acts[0]) && NoOverlaps(Do(s, acts[0]), acts[1..]))
  }

  lemma {:induction false} OnceAlways(s: Stores, acts: seq<Action>)
    requires Inv(s) && Once(s.accepted) && NoOverlaps(s, acts)
    ensures Once(Exec(s, acts).accepted)
    decreases acts
  {
    if acts != [] {
      InvStep(s, acts[0]);
      OnceStep(s, acts[0]);
      OnceAlways(Do(s, acts[0]), acts[1..]);
    }
  }

  /** In every run without such an overlap each token is accepted at most once. */
  lemma AcceptedOnceInterleaved(s: Stores, acts: seq<Action>)
    requires Init(s) && NoOverlaps(s, acts)
    ensures Once(Exec(s, acts).accepted)
  {
    OnceAlways(s, acts);
  }

  /** Two refreshes that both look the token up before either deletes it are both accepted, and
      both hand out a new token. */
  lemma BothAccepted(s: Stores, raw: Token, p: nat, q: nat)
    requires raw in s.store && raw.userId in s.active && p !in s.procs && q !in s.procs && p != q
    ensures var acts := [StartRefresh(p, raw), StartRefresh(q, raw), Advance(p), Advance(q), Advance(p), Advance(q), Advance(p), Advance(q)];
            var u := Exec(s, acts);
            && u.accepted == s.accepted + [raw, raw]
            && Token(raw.userId, s.second) in u.store && Token(raw.userId, s.second + 1) in u.store
  {
    var first := [StartRefresh(p, raw), StartRefresh(q, raw), Advance(p), Advance(q)];
    var last := [Advance(p), Advance(q), Advance(p), Advance(q)];
    var t := Do(Do(Do(Do(s, StartRefresh(p, raw)), StartRefresh(q, raw)), Advance(p)), Advance(q));
    ExecFour(s, StartRefresh(p, raw), StartRefresh(q, raw), Advance(p), Advance(q), last);
    ExecFour(t, Advance(p), Advance(q), Advance(p), Advance(q), []);
    assert first + last == [StartRefresh(p, raw), StartRefresh(q, raw), Advance(p), Advance(q), Advance(p), Advance(q), Advance(p), Advance(q)];
    assert last + [] == last;
    assert t.procs[p] == Deleted(raw) && t.procs[q] == Deleted(raw) && t.accepted == s.accepted + [raw] + [raw];
    assert s.accepted + [raw] + [raw] == s.accepted + [raw, raw];
    var v := Do(Do(t, Advance(p)), Advance(q));
    assert v.procs[p] == Issuing(raw.userId) && v.procs[q] == Issuing(raw.userId);
  }

  lemma ExecCons(s: Stores, a: Action, rest: seq<Action>)
    ensures Exec(s, [a] + rest) == Exec(Do(s, a), rest)
  {
    assert ([a] + rest)[1..] == rest;
  }

  lemma ExecFour(s: Stores, a: Action, b: Action, c: Action, d: Action, rest: seq<Action>)
    ensures Exec(s, [a, b, c, d] + rest) == Exec(Do(Do(Do(Do(s, a), b), c), d), rest)
  {
    ExecCons(s, a, [b, c, d] + rest);
    ExecCons(Do(s, a), b, [c, d] + rest);
    ExecCons(Do(Do(s, a), b), c, [d] + rest);
    ExecCons(Do(Do(Do(s, a), b), c), d, rest);
    assert [a] + ([b, c, d] + rest) == [a, b, c, d] + rest && [b] + ([c, d] + rest) == [b, c, d] + rest;
    assert [c] + ([d] + rest) == [c, d] + rest;
  }

  // ---------------------------------------------------------------- what a password change ends

  /** Process `p` can still insert a token for the user without logging in. */
  predicate CanIssue(s: Stores, p: nat, userId: string) {
    && p in s.procs
    && match s.procs[p]
       case Found(raw) => raw.userId == userId && userId in s.active
       case Deleted(raw) => raw.userId == userId && userId in s.active
       case Issuing(u) => u == userId
       case _ => false
  }

  ghost predicate InFlight(s: Stores, userId: string) {
    exists p :: CanIssue(s, p, userId)
  }

  ghost predicate NoLogin(acts: seq<Action>, userId: string) {
    forall a <- acts :: !(a.StartLogin? && a.userId == userId)
  }

  ghost predicate SignedOut(s: Stores, userId: string) {
    TokensOf(s.store, userId) == {}
  }

  lemma StaysOutStep(s: Stores, a: Action, userId: string)
    requires SignedOut(s, userId) && !InFlight(s, userId) && !(a.StartLogin? && a.userId == userId)
    ensures SignedOut(Do(s, a), userId) && !InFlight(Do(s, a), userId)
  {
    var u := Do(s, a);
    forall p ensures !CanIssue(u, p, userId) {
      assert !CanIssue(s, p, userId);
      if a.StartRefresh? && a.raw.userId == userId { assert a.raw !in s.store by { assert a.raw !in TokensOf(s.store, userId); } }
    }
    forall t | t in u.store ensures t.userId != userId {
      if t in s.store {
        assert t !in TokensOf(s.store, userId);
      } else {
        assert a.Advance? && !CanIssue(s, a.p, userId);
      }
    }
  }

  lemma {:induction false} StaysOut(s: Stores, acts: seq<Action>, userId: string)
    requires SignedOut(s, userId) && !InFlight(s, userId) && NoLogin(acts, userId)
    ensures SignedOut(Exec(s, acts), userId)
    decreases acts
  {
    if acts != [] {
      assert acts[0] in acts && forall a <- acts[1..] :: a in acts;
      StaysOutStep(s, acts[0], userId);
      StaysOut(Do(s, acts[0]), acts[1..], userId);
    }
  }

  /** A call in flight finishes and leaves the user signed in. */
  lemma FlightLands(s: Stores, p: nat, userId: string) returns (acts: seq<Action>)
    requires CanIssue(s, p, userId)
    ensures NoLogin(acts, userId) && !SignedOut(Exec(s, acts), userId)
  {
    var s1 := Do(s, Advance(p));
    var s2 := Do(s1, Advance(p));
    var s3 := Do(s2, Advance(p));
    match s.procs[p]
    case Issuing(_) =>
      acts := [Advance(p)];
      assert Exec(s, acts) == Exec(s1, acts[1..]) == s1;
      assert Token(userId, s.second) in TokensOf(s1.store, userId);
    case Deleted(_) =>
      acts := [Advance(p), Advance(p)];
      assert Exec(s, acts) == Exec(s1, acts[1..]) == Exec(s2, acts[1..][1..]) == s2;
      assert Token(userId, s.second) in TokensOf(s2.store, userId);
    case Found(_) =>
      acts := [Advance(p), Advance(p), Advance(p)];
      assert Exec(s, acts) == Exec(s1, acts[1..]) == Exec(s2, acts[1..][1..]) == Exec(s3, acts[1..][1..][1..]) == s3;
      assert Token(userId, s.second) in TokensOf(s3.store, userId);
  }

  /** Deleting all tokens of a user signs the user out of every session, for every continuation
      without a new login, exactly when no refresh or login of that user is in flight. */
  lemma RevocationComplete(s: Stores, userId: string)
    ensures (forall acts :: NoLogin(acts, userId) ==> SignedOut(Exec(Do(s, DeleteMany(userId)), acts), userId))
            <==> !InFlight(s, userId)
  {
    var u := Do(s, DeleteMany(userId));
    assert forall p :: CanIssue(u, p, userId) <==> CanIssue(s, p, userId);
    if InFlight(s, userId) {
      var p :| CanIssue(s, p, userId);
      var acts := FlightLands(u, p, userId);
    } else {
      forall acts | NoLogin(acts, userId) ensures SignedOut(Exec(u, acts), userId) {
        StaysOut(u, acts, userId);
      }
    }
  }

  // ---------------------------------------------------------------- the calls in one go

  /** The stores of the rotation machine are those of the accounts. */
  ghost predicate Mirrors(s: Stores, d: Accounts) {
    && s.store == d.store && s.accepted == d.accepted
    && forall id :: id in s.active <==> exists u :: u in d.users && u.userId == id && u.isActive
  }

  /** The store calls of a refresh in one go are the whole call. */
  lemma TogetherIsRefresh(s: Stores, d: Accounts, p: nat, raw: Token)
    requires Mirrors(s, d) && Apart(d.users) && p !in s.procs && Token(raw.userId, s.second) !in s.store
    ensures var t, e := Exec(s, [StartRefresh(p, raw), Advance(p), Advance(p), Advance(p)]), Act(d, Refresh(raw, true, s.second)).0;
            t.store == e.store && t.accepted == e.accepted
  {
    var a, b := StartRefresh(p, raw), Advance(p);
    var acts := [a, b, b, b];
    assert acts[1..] == [b, b, b] && acts[1..][1..] == [b, b] && acts[1..][1..][1..] == [b] && acts[1..][1..][1..][1..] == [];
    var s1 := Do(s, a);
    var s2 := Do(s1, b);
    var s3 := Do(s2, b);
    assert Exec(s, acts) == Exec(s2, [b, b]) == Exec(s3, [b]) == Do(s3, b);
    FoundById(d.users, raw.userId);
    if raw in s.store {
      assert s2.procs[p] == Deleted(raw) && s3.procs[p] == if raw.userId in s.active then Issuing(raw.userId) else Ended;
    } else {
      assert s2.procs[p] == Ended && s3.procs[p] == Ended;
    }
  }

  /** So are those of a login whose password is right. */
  lemma TogetherIsLogin(s: Stores, d: Accounts, p: nat, u: User)
    requires Mirrors(s, d) && Apart(d.users) && p !in s.procs && u in d.users && u.isActive && Token(u.userId, s.second) !in s.store
    ensures Exec(s, [StartLogin(p, u.userId), Advance(p)]).store == Act(d, Login(u.email, u.password, s.second)).0.store
  {
    var a, b := StartLogin(p, u.userId), Advance(p);
    assert [a, b][1..] == [b] && [b][1..] == [];
    assert Exec(s, [a, b]) == Exec(Do(s, a), [b]) == Do(Do(s, a), b);
    FoundByEmail(d.users, u.email);
  }
}
