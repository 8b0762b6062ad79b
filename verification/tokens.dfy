/** Accounts and refresh-token rotation. A refresh token is a signed payload, so two tokens of one
    user are the same string exactly when they were issued in the same second. */
module Tokens {
  import opened Options
  import Layout

  datatype User = User(userId: string, email: string, password: string, isActive: bool)

  /** `iat` is in whole seconds, as section 4.1.6 of RFC 7519 has it. */
  datatype Token = Token(userId: string, iat: nat)

  datatype Accounts = Accounts(
    users: seq<User>,
    store: set<Token>,      // the refresh-token collection
    minted: set<Token>,     // every token ever issued
    accepted: seq<Token>)   // every token a refresh has consumed, in order

  datatype AuthError =
    | EmailTaken | InvalidCredentials | InvalidRefreshToken | RefreshTokenRevoked | UserNotFound | WrongPassword | DuplicateKey

  datatype Reply = Issued(token: Token) | Completed | Denied(error: AuthError)

  /** `valid` is the verdict of the signature and expiry check; `Lapse` is the store's own removal
      of a document whose time is over. */
  datatype Call =
    | Register(userId: string, email: string, password: string, at: nat)
    | Login(email: string, password: string, at: nat)
    | Refresh(raw: Token, valid: bool, at: nat)
    | Logout(raw: Token)
    | ChangePassword(userId: string, current: string, next: string)
    | DeleteAccount(userId: string, password: string, stamp: nat)
    | Lapse(raw: Token)

  function ById(users: seq<User>, userId: string): Option<User> {
    if users == [] then None else if users[0].userId == userId then Some(users[0]) else ById(users[1..], userId)
  }

  function ByEmail(users: seq<User>, email: string): Option<User> {
    if users == [] then None else if users[0].email == email then Some(users[0]) else ByEmail(users[1..], email)
  }

  function Replace(users: seq<User>, user: User): seq<User> {
    seq(|users|, i requires 0 <= i < |users| => if users[i].userId == user.userId then user else users[i])
  }

  function TokensOf(store: set<Token>, userId: string): set<Token> {
    set t <- store | t.userId == userId
  }

  /** The e-mail address a deleted account is left with. */
  function Vacated(email: string, stamp: nat): string {
    "deleted_" + Layout.Dec(stamp) + "_" + email
  }

  /** The collection refuses a token string it already holds. */
  function Issue(s: Accounts, userId: string, at: nat): (Accounts, Reply) {
    var t := Token(userId, at);
    if t in s.store then (s, Denied(DuplicateKey))
    else (s.(store := s.store + {t}, minted := s.minted + {t}), Issued(t))
  }

  function Act(s: Accounts, c: Call): (Accounts, Reply) {
    match c
    case Register(userId, email, password, at) =>
      if ById(s.users, userId).Some? || ByEmail(s.users, email).Some? then (s, Denied(EmailTaken))
      else Issue(s.(users := s.users + [User(userId, email, password, true)]), userId, at)
    case Login(email, password, at) =>
      var user := ByEmail(s.users, email);
      if user.None? || !user.value.isActive || user.value.password != password then (s, Denied(InvalidCredentials))
      else Issue(s, user.value.userId, at)
    case Refresh(raw, valid, at) =>
      if !valid then (s, Denied(InvalidRefreshToken))
      else if raw !in s.store then (s.(store := s.store - TokensOf(s.store, raw.userId)), Denied(RefreshTokenRevoked))
      else
        var used := s.(store := s.store - {raw}, accepted := s.accepted + [raw]);
        var user := ById(s.users, raw.userId);
        if user.None? || !user.value.isActive then (used, Denied(UserNotFound))
        else Issue(used, raw.userId, at)
    case Logout(raw) => (s.(store := s.store - {raw}), Completed)
    case ChangePassword(userId, current, next) =>
      var user := ById(s.users, userId);
      if user.None? || !user.value.isActive then (s, Denied(UserNotFound))
      else if user.value.password != current then (s, Denied(WrongPassword))
      else (s.(users := Replace(s.users, user.value.(password := next)),
               store := s.store - TokensOf(s.store, userId)), Completed)
    case DeleteAccount(userId, password, stamp) =>
      var user := ById(s.users, userId);
      if user.None? || !user.value.isActive then (s, Denied(UserNotFound))
      else if user.value.password != password then (s, Denied(WrongPassword))
      else
        var vacated := Vacated(user.value.email, stamp);
        if ByEmail(s.users, vacated).Some? then (s, Denied(DuplicateKey))
        else (s.(users := Replace(s.users, user.value.(email := vacated, isActive := false)),
                 store := s.store - TokensOf(s.store, userId)), Completed)
    case Lapse(raw) => (s.(store := s.store - {raw}), Completed)
  }

  function After(s: Accounts, calls: seq<Call>): Accounts
    decreases calls
  {
    if calls == [] then s else After(Act(s, calls[0]).0, calls[1..])
  }

  const NOBODY := Accounts([], {}, {}, [])

  // ---------------------------------------------------------------- one acceptance per token

  /** The token a call is about to issue, read off the state before it. */
  function IssuesFor(s: Accounts, c: Call): Option<Token> {
    match c
    case Register(userId, email, _, at) =>
      if ById(s.users, userId).None? && ByEmail(s.users, email).None? then Some(Token(userId, at)) else None
    case Login(email, password, at) =>
      var user := ByEmail(s.users, email);
      if user.Some? && user.value.isActive && user.value.password == password then Some(Token(user.value.userId, at)) else None
    case Refresh(raw, valid, at) =>
      var user := ById(s.users, raw.userId);
      if valid && raw in s.store && user.Some? && user.value.isActive then Some(Token(raw.userId, at)) else None
    case _ => None
  }

  /** The token has been accepted before, or this very refresh accepts it: an issue in the second
      of an earlier one. */
  predicate Repeats(s: Accounts, c: Call) {
    var t := IssuesFor(s, c);
    t.Some? && (t.value in s.accepted || (c.Refresh? && c.at == c.raw.iat))
  }

  ghost predicate OnceOnly(accepted: seq<Token>) {
    forall i, j :: 0 <= i < j < |accepted| ==> accepted[i] != accepted[j]
  }

  /** No token was accepted twice, and the accepted ones are gone from the store. */
  ghost predicate Spent(s: Accounts) {
    OnceOnly(s.accepted) && forall t <- s.accepted :: t !in s.store
  }

  /** In other words: no token has been accepted twice, whatever is presented next. */
  lemma SpentMeansOnce(s: Accounts)
    ensures Spent(s) <==> forall raw: Token, at: nat :: OnceOnly(Act(s, Refresh(raw, true, at)).0.accepted)
  {
    if Spent(s) {
      forall raw: Token, at: nat ensures OnceOnly(Act(s, Refresh(raw, true, at)).0.accepted) { }
    } else if t :| t in s.accepted && t in s.store {
      var k :| 0 <= k < |s.accepted| && s.accepted[k] == t;
      var after := Act(s, Refresh(t, true, 0)).0.accepted;
      assert after[k] == after[|s.accepted|];
    } else {
      var i, j :| 0 <= i < j < |s.accepted| && s.accepted[i] == s.accepted[j];
      var after := Act(s, Refresh(s.accepted[i], true, 0)).0.accepted;
      assert after == s.accepted;
    }
  }

  /** A call breaks one-time use exactly when it issues again a token that has been accepted. */
  lemma SpentStep(s: Accounts, c: Call)
    requires Spent(s)
    ensures Spent(Act(s, c).0) <==> !Repeats(s, c)
  {
    var next := Act(s, c).0;
    if Repeats(s, c) { assert IssuesFor(s, c).value in next.accepted; }
  }

  ghost predicate NoRepeats(s: Accounts, calls: seq<Call>)
    decreases calls
  {
    calls == [] || (!Repeats(s, calls[0]) && NoRepeats(Act(s, calls[0]).0, calls[1..]))
  }

  lemma AfterPrefix(s: Accounts, calls: seq<Call>, k: nat)
    requires k < |calls|
    ensures After(s, calls[..k + 1]) == After(Act(s, calls[0]).0, calls[1..][..k])
  {
    assert calls[..k + 1][0] == calls[0] && calls[..k + 1][1..] == calls[1..][..k];
  }

  /** Every state of a run respects one-time use exactly when no call of the run repeats. */
  lemma {:induction false} SpentRun(s: Accounts, calls: seq<Call>)
    requires Spent(s)
    ensures NoRepeats(s, calls) <==> forall k :: 0 <= k <= |calls| ==> Spent(After(s, calls[..k]))
    decreases calls
  {
    if calls == [] {
      assert calls[..0] == calls;
    } else {
      var next, rest := Act(s, calls[0]).0, calls[1..];
      SpentStep(s, calls[0]);
      AfterPrefix(s, calls, 0);
      assert rest[..0] == [] && calls[..0] == [];
      forall k | 0 <= k <= |rest| ensures After(s, calls[..k + 1]) == After(next, rest[..k]) { AfterPrefix(s, calls, k); }
      if Spent(next) { SpentRun(next, rest); }
      if forall k :: 0 <= k <= |calls| ==> Spent(After(s, calls[..k])) {
        forall k | 0 <= k <= |rest| ensures Spent(After(next, rest[..k])) {
          assert Spent(After(s, calls[..k + 1]));
        }
      }
      if NoRepeats(s, calls) {
        forall k | 0 <= k <= |calls| ensures Spent(After(s, calls[..k])) {
          if k > 0 { assert Spent(After(next, rest[..k - 1])); }
        }
      }
    }
  }

  /** Distinct seconds: no issue repeats a token ever issued before. */
  ghost predicate FreshRun(s: Accounts, calls: seq<Call>)
    decreases calls
  {
    calls == [] || (FreshCall(s, calls[0]) && FreshRun(Act(s, calls[0]).0, calls[1..]))
  }

  predicate FreshCall(s: Accounts, c: Call) {
    Act(s, c).1.Issued? ==> Act(s, c).1.token !in s.minted
  }

  ghost predicate Known(s: Accounts) {
    s.store <= s.minted && forall t <- s.accepted :: t in s.minted
  }

  /** What is repeated was minted before. */
  lemma FreshNeverRepeats(s: Accounts, c: Call)
    requires Spent(s) && Known(s) && FreshCall(s, c)
    ensures !Repeats(s, c) && Known(Act(s, c).0)
  {
  }

  lemma {:induction false} FreshRunSpent(s: Accounts, calls: seq<Call>)
    requires Spent(s) && Known(s) && FreshRun(s, calls)
    ensures NoRepeats(s, calls)
    decreases calls
  {
    if calls != [] {
      FreshNeverRepeats(s, calls[0]);
      SpentStep(s, calls[0]);
      FreshRunSpent(Act(s, calls[0]).0, calls[1..]);
    }
  }

  /** With issues in distinct seconds no token is accepted twice. */
  lemma AcceptedOnce(s: Accounts, calls: seq<Call>)
    requires Spent(s) && Known(s) && FreshRun(s, calls)
    ensures Spent(After(s, calls))
  {
    FreshRunSpent(s, calls);
    SpentRun(s, calls);
    assert calls[..|calls|] == calls;
  }

  /** In every run from an empty service in which no call repeats, whoever presents an accepted
      token again empties its user's tokens and no other. */
  lemma ReuseRevokesUser(calls: seq<Call>, raw: Token, at: nat)
    requires NoRepeats(NOBODY, calls) && raw in After(NOBODY, calls).accepted
    ensures var s := After(NOBODY, calls);
            var (next, reply) := Act(s, Refresh(raw, true, at));
            && Spent(s)
            && reply == Denied(RefreshTokenRevoked)
            && next == s.(store := next.store)
            && forall t :: t in next.store <==> t in s.store && t.userId != raw.userId
  {
    SpentRun(NOBODY, calls);
    assert calls[..|calls|] == calls;
  }

  // ---------------------------------------------------------------- dead tokens stay dead

  /** A call brings a token into the store exactly when it is about to issue it, and accepts it
      only from the store. */
  lemma DeadStep(s: Accounts, c: Call, t: Token)
    requires t !in s.store
    ensures var next := Act(s, c).0;
            && (t in next.store <==> IssuesFor(s, c) == Some(t))
            && s.accepted <= next.accepted && t !in next.accepted[|s.accepted|..]
  {
  }

  ghost predicate NeverReissued(s: Accounts, calls: seq<Call>, t: Token)
    decreases calls
  {
    calls == [] || (IssuesFor(s, calls[0]) != Some(t) && NeverReissued(Act(s, calls[0]).0, calls[1..], t))
  }

  /** A revoked token stays out of the store for a whole run exactly when no call of the run is
      about to issue it again. */
  lemma {:induction false} DeadRun(s: Accounts, calls: seq<Call>, t: Token)
    requires t !in s.store
    ensures NeverReissued(s, calls, t) <==> forall k :: 0 <= k <= |calls| ==> t !in After(s, calls[..k]).store
    decreases calls
  {
    if calls == [] {
      assert calls[..0] == calls;
    } else {
      var next, rest := Act(s, calls[0]).0, calls[1..];
      DeadStep(s, calls[0], t);
      AfterPrefix(s, calls, 0);
      assert rest[..0] == [] && calls[..0] == [];
      forall k | 0 <= k <= |rest| ensures After(s, calls[..k + 1]) == After(next, rest[..k]) { AfterPrefix(s, calls, k); }
      if t !in next.store { DeadRun(next, rest, t); }
      if forall k :: 0 <= k <= |calls| ==> t !in After(s, calls[..k]).store {
        forall k | 0 <= k <= |rest| ensures t !in After(next, rest[..k]).store {
          assert t !in After(s, calls[..k + 1]).store;
        }
      }
      if NeverReissued(s, calls, t) {
        forall k | 0 <= k <= |calls| ensures t !in After(s, calls[..k]).store {
          if k > 0 { assert t !in After(next, rest[..k - 1]).store; }
        }
      }
    }
  }

  /** And then it is not accepted either. */
  lemma {:induction false} DeadStaysDead(s: Accounts, calls: seq<Call>, t: Token)
    requires t !in s.store && NeverReissued(s, calls, t)
    ensures t !in After(s, calls).store
    ensures |s.accepted| <= |After(s, calls).accepted|
    ensures t !in After(s, calls).accepted[|s.accepted|..]
    decreases calls
  {
    if calls != [] {
      var next := Act(s, calls[0]).0;
      DeadStep(s, calls[0], t);
      DeadStaysDead(next, calls[1..], t);
      var end := After(s, calls).accepted;
      var m, n := |s.accepted|, |next.accepted|;
      AcceptedGrows(next, calls[1..]);
      assert end[m..] == end[m..n] + end[n..];
      assert end[m..n] == next.accepted[m..];
    }
  }

  lemma {:induction false} AcceptedGrows(s: Accounts, calls: seq<Call>)
    ensures s.accepted <= After(s, calls).accepted
    decreases calls
  {
    if calls != [] { AcceptedGrows(Act(s, calls[0]).0, calls[1..]); }
  }

  /** Issues in distinct seconds never bring a minted token back. */
  lemma {:induction false} FreshNeverReissues(s: Accounts, calls: seq<Call>, t: Token)
    requires t in s.minted && t !in s.store && FreshRun(s, calls)
    ensures NeverReissued(s, calls, t)
    decreases calls
  {
    if calls != [] {
      DeadStep(s, calls[0], t);
      FreshNeverReissues(Act(s, calls[0]).0, calls[1..], t);
    }
  }

  /** After a completed password change or account deletion a token the user had been issued stays
      out of the store exactly as long as no call issues it again, and is then never accepted; with
      issues in distinct seconds that is for ever. */
  lemma RevokedForGood(s: Accounts, c: Call, calls: seq<Call>, t: Token)
    requires c.ChangePassword? || c.DeleteAccount?
    requires Act(s, c).1 == Completed && t.userId == c.userId
    ensures var u := Act(s, c).0;
            && (NeverReissued(u, calls, t) <==> forall k :: 0 <= k <= |calls| ==> t !in After(u, calls[..k]).store)
            && |s.accepted| <= |After(u, calls).accepted|
            && (NeverReissued(u, calls, t) ==> t !in After(u, calls).accepted[|s.accepted|..])
            && (t in s.minted && FreshRun(u, calls) ==> NeverReissued(u, calls, t))
  {
    var u := Act(s, c).0;
    DeadRun(u, calls, t);
    AcceptedGrows(u, calls);
    if NeverReissued(u, calls, t) { DeadStaysDead(u, calls, t); }
    if t in s.minted && FreshRun(u, calls) {
      FreshNeverReissues(u, calls, t);
      DeadStaysDead(u, calls, t);
    }
  }

  // ---------------------------------------------------------------- inactive accounts

  ghost predicate Gone(s: Accounts, userId: string) {
    && ById(s.users, userId).Some? && !ById(s.users, userId).value.isActive
    && TokensOf(s.store, userId) == {}
  }

  lemma {:induction false} ByIdReplace(users: seq<User>, user: User, userId: string)
    ensures var found := ById(Replace(users, user), userId);
            found == if userId == user.userId && ById(users, userId).Some? then Some(user) else ById(users, userId)
  {
    if users != [] {
      assert Replace(users, user)[1..] == Replace(users[1..], user);
      ByIdReplace(users[1..], user, userId);
    }
  }

  lemma {:induction false} ByIdAppend(users: seq<User>, user: User, userId: string)
    ensures ById(users, userId).Some? ==> ById(users + [user], userId) == ById(users, userId)
    ensures ById(users, userId).None? ==>
              ById(users + [user], userId) == if user.userId == userId then Some(user) else None
  {
    if users != [] {
      assert (users + [user])[1..] == users[1..] + [user];
      ByIdAppend(users[1..], user, userId);
    }
  }

  lemma {:induction false} ByIdIs(users: seq<User>, userId: string)
    ensures ById(users, userId).Some? ==> ById(users, userId).value.userId == userId
  {
    if users != [] { ByIdIs(users[1..], userId); }
  }

  /** Users are found under one id only. */
  ghost predicate DistinctUsers(users: seq<User>) {
    forall i, j :: 0 <= i < j < |users| ==> users[i].userId != users[j].userId
  }

  lemma {:induction false} ByIdAt(users: seq<User>, i: nat)
    requires DistinctUsers(users) && i < |users|
    ensures ById(users, users[i].userId) == Some(users[i])
  {
    if i > 0 {
      assert users[0].userId != users[i].userId;
      ByIdAt(users[1..], i - 1);
    }
  }

  lemma {:induction false} ByEmailAt(users: seq<User>, email: string) returns (i: nat)
    requires ByEmail(users, email).Some?
    ensures i < |users| && users[i] == ByEmail(users, email).value
  {
    if users[0].email == email {
      i := 0;
    } else {
      i := ByEmailAt(users[1..], email);
      i := i + 1;
    }
  }

  /** What every run keeps: one account per id, and tokens in the store only for active accounts. */
  ghost predicate OwnersActive(s: Accounts) {
    && DistinctUsers(s.users)
    && forall t <- s.store :: ById(s.users, t.userId).Some? && ById(s.users, t.userId).value.isActive
  }

  lemma {:induction false} ByIdNone(users: seq<User>, userId: string)
    requires ById(users, userId).None?
    ensures forall u <- users :: u.userId != userId
  {
    if users != [] { ByIdNone(users[1..], userId); }
  }

  /** An account is rewritten and loses its tokens. */
  lemma OwnersReplace(s: Accounts, t: Accounts, userId: string, user: User)
    requires OwnersActive(s) && ById(s.users, userId).Some? && user.userId == ById(s.users, userId).value.userId
    requires t == s || (t.users == Replace(s.users, user) && t.store == s.store - TokensOf(s.store, userId))
    requires user.isActive ==> ById(s.users, userId).value.isActive
    ensures OwnersActive(t)
    ensures forall u :: Gone(s, u) ==> Gone(t, u)
  {
    ByIdIs(s.users, userId);
    forall u { ByIdReplace(s.users, user, u); }
  }

  lemma OwnersStep(s: Accounts, c: Call)
    requires OwnersActive(s)
    ensures OwnersActive(Act(s, c).0)
    ensures forall u :: Gone(s, u) ==> Gone(Act(s, c).0, u)
  {
    match c
    case Register(userId, email, password, at) =>
      var user := User(userId, email, password, true);
      forall u { ByIdAppend(s.users, user, u); }
      if ById(s.users, userId).None? { ByIdNone(s.users, userId); }
    case Login(email, password, at) =>
      if ByEmail(s.users, email).Some? {
        var i := ByEmailAt(s.users, email);
        ByIdAt(s.users, i);
      }
    case ChangePassword(userId, current, next) =>
      var user := ById(s.users, userId);
      if user.Some? { OwnersReplace(s, Act(s, c).0, userId, user.value.(password := next)); }
    case DeleteAccount(userId, password, stamp) =>
      var user := ById(s.users, userId);
      if user.Some? {
        OwnersReplace(s, Act(s, c).0, userId, user.value.(email := Vacated(user.value.email, stamp), isActive := false));
      }
    case Refresh(_, _, _) =>
    case Logout(_) =>
    case Lapse(_) =>
  }

  lemma {:induction false} OwnersAlways(s: Accounts, calls: seq<Call>)
    requires OwnersActive(s)
    ensures OwnersActive(After(s, calls))
    ensures forall u :: Gone(s, u) ==> Gone(After(s, calls), u)
    decreases calls
  {
    if calls != [] {
      OwnersStep(s, calls[0]);
      OwnersAlways(Act(s, calls[0]).0, calls[1..]);
    }
  }

  /** In every run of whole calls the branch of refresh for a missing or inactive user is dead: the
      tokens of such a user left the store with the account. */
  lemma NoTokenWithoutUser(calls: seq<Call>, raw: Token, valid: bool, at: nat)
    ensures Act(After(NOBODY, calls), Refresh(raw, valid, at)).1 != Denied(UserNotFound)
  {
    OwnersAlways(NOBODY, calls);
  }

  /** A deleted account stays deleted: whatever runs afterwards, in whatever seconds, none of its
      tokens is stored, so none is accepted. */
  lemma DeletedForGood(before: seq<Call>, c: Call, calls: seq<Call>, raw: Token, at: nat)
    requires c.DeleteAccount? && Act(After(NOBODY, before), c).1 == Completed && raw.userId == c.userId
    ensures var s := After(Act(After(NOBODY, before), c).0, calls);
            Gone(s, c.userId) && Act(s, Refresh(raw, true, at)).1 == Denied(RefreshTokenRevoked)
  {
    var s := After(NOBODY, before);
    OwnersAlways(NOBODY, before);
    var (next, _) := Act(s, c);
    ByIdIs(s.users, c.userId);
    var user := ById(s.users, c.userId).value;
    ByIdReplace(s.users, user.(email := Vacated(user.email, c.stamp), isActive := false), c.userId);
    assert Gone(next, c.userId);
    OwnersStep(s, c);
    OwnersAlways(next, calls);
    assert raw !in TokensOf(After(next, calls).store, c.userId);
  }

  // ---------------------------------------------------------------- within one second

  /** A refresh in the second of issue hands the same token back and accepts it again; and a login
      in the second of a password change revives the token that the change revoked. */
  lemma SameSecondReuse(userId: string, email: string, at: nat)
    ensures var s := After(NOBODY, [Register(userId, email, "p", at)]);
            var t := Token(userId, at);
            && After(s, [Refresh(t, true, at), Refresh(t, true, at)]).accepted == [t, t]
            && After(s, [ChangePassword(userId, "p", "q"), Login(email, "q", at), Refresh(t, true, at + 1)]).accepted == [t]
            && Act(s, ChangePassword(userId, "p", "q")).1 == Completed
  {
    var t := Token(userId, at);
    var s := Act(NOBODY, Register(userId, email, "p", at)).0;
    assert s == Accounts([User(userId, email, "p", true)], {t}, {t}, []);
    OneCall(NOBODY, Register(userId, email, "p", at));
    assert ById(s.users, userId) == Some(s.users[0]) && ByEmail(s.users, email) == Some(s.users[0]);

    var r := Refresh(t, true, at);
    var s1 := Act(s, r).0;
    assert s1.store == {t} && s1.accepted == [t] && s1.users == s.users;
    TwoCalls(s, r, r);

    var c, l, r1 := ChangePassword(userId, "p", "q"), Login(email, "q", at), Refresh(t, true, at + 1);
    var s2 := Act(s, c).0;
    assert s2.users == [User(userId, email, "q", true)] && s2.store == {};
    assert ByEmail(s2.users, email) == Some(s2.users[0]);
    var s3 := Act(s2, l).0;
    assert s3.store == {t} && s3.accepted == [];
    TwoCalls(s2, l, r1);
    assert [c, l, r1][1..] == [l, r1];
  }

  lemma OneCall(s: Accounts, a: Call)
    ensures After(s, [a]) == Act(s, a).0
  {
    assert After(Act(s, a).0, [a][1..]) == Act(s, a).0;
  }

  lemma TwoCalls(s: Accounts, a: Call, b: Call)
    ensures After(s, [a, b]) == Act(Act(s, a).0, b).0
  {
    assert [a, b][1..] == [b];
    OneCall(Act(s, a).0, b);
  }

  // ---------------------------------------------------------------- the services

  /** `AuthService` and `UserService` over their two collections, each call atomic. */
  // ---------------------------------------------------------------- what each call answers and leaves

  /** User ids and e-mail addresses are unique. */
  ghost predicate Apart(users: seq<User>) {
    forall i, j :: 0 <= i < j < |users| ==> users[i].userId != users[j].userId && users[i].email != users[j].email
  }

  /** A token of this user and second, unless the store holds it already. */
  ghost predicate IssueOutcome(d: Accounts, userId: string, at: nat, r: Reply, e: Accounts) {
    var t := Token(userId, at);
    if t in d.store then r == Denied(DuplicateKey) && e == d
    else r == Issued(t) && e == Accounts(d.users, d.store + {t}, d.minted + {t}, d.accepted)
  }

  ghost predicate RegisterOutcome(d: Accounts, userId: string, email: string, password: string, at: nat, r: Reply, e: Accounts) {
    if exists u :: u in d.users && (u.userId == userId || u.email == email) then r == Denied(EmailTaken) && e == d
    else IssueOutcome(d.(users := d.users + [User(userId, email, password, true)]), userId, at, r, e)
  }

  ghost predicate LoginOutcome(d: Accounts, email: string, password: string, at: nat, r: Reply, e: Accounts) {
    && ((forall u :: u in d.users ==> u.email != email) ==> r == Denied(InvalidCredentials) && e == d)
    && forall u :: u in d.users && u.email == email ==>
         if u.isActive && u.password == password then IssueOutcome(d, u.userId, at, r, e)
         else r == Denied(InvalidCredentials) && e == d
  }

  /** None of the user's tokens is left, and everybody else's are. */
  ghost predicate Revoked(before: set<Token>, after: set<Token>, userId: string) {
    forall t :: t in after <==> t in before && t.userId != userId
  }

  ghost predicate RefreshOutcome(d: Accounts, raw: Token, valid: bool, at: nat, r: Reply, e: Accounts) {
    if !valid then r == Denied(InvalidRefreshToken) && e == d
    else if raw !in d.store then
      r == Denied(RefreshTokenRevoked) && Revoked(d.store, e.store, raw.userId) && e == d.(store := e.store)
    else
      var used := d.(store := d.store - {raw}, accepted := d.accepted + [raw]);
      if exists u :: u in d.users && u.userId == raw.userId && u.isActive then IssueOutcome(used, raw.userId, at, r, e)
      else r == Denied(UserNotFound) && e == used
  }

  ghost predicate LogoutOutcome(d: Accounts, raw: Token, r: Reply, e: Accounts) {
    r == Completed && e == d.(store := e.store) && forall t :: t in e.store <==> t in d.store && t != raw
  }

  /** Only this user's document has changed, and it reads `user` now. */
  ghost predicate Rewritten(before: seq<User>, after: seq<User>, user: User) {
    |after| == |before| && forall i :: 0 <= i < |before| ==> after[i] == if before[i].userId == user.userId then user else before[i]
  }

  ghost predicate ChangeOutcome(d: Accounts, userId: string, current: string, next: string, r: Reply, e: Accounts) {
    && ((forall u :: u in d.users && u.isActive ==> u.userId != userId) ==> r == Denied(UserNotFound) && e == d)
    && forall u :: u in d.users && u.userId == userId && u.isActive ==>
         if u.password != current then r == Denied(WrongPassword) && e == d
         else
           && r == Completed && Rewritten(d.users, e.users, User(userId, u.email, next, true))
           && Revoked(d.store, e.store, userId) && e == d.(users := e.users, store := e.store)
  }

  ghost predicate DeleteOutcome(d: Accounts, userId: string, password: string, stamp: nat, r: Reply, e: Accounts) {
    && ((forall u :: u in d.users && u.isActive ==> u.userId != userId) ==> r == Denied(UserNotFound) && e == d)
    && forall u :: u in d.users && u.userId == userId && u.isActive ==>
         var vacated := "deleted_" + Layout.Dec(stamp) + "_" + u.email;
         if u.password != password then r == Denied(WrongPassword) && e == d
         else if exists v :: v in d.users && v.email == vacated then r == Denied(DuplicateKey) && e == d
         else
           && r == Completed && Rewritten(d.users, e.users, User(userId, vacated, u.password, false))
           && Revoked(d.store, e.store, userId) && e == d.(users := e.users, store := e.store)
  }

  ghost predicate Outcome(d: Accounts, c: Call, r: Reply, e: Accounts) {
    match c
    case Register(userId, email, password, at) => RegisterOutcome(d, userId, email, password, at, r, e)
    case Login(email, password, at) => LoginOutcome(d, email, password, at, r, e)
    case Refresh(raw, valid, at) => RefreshOutcome(d, raw, valid, at, r, e)
    case Logout(raw) => LogoutOutcome(d, raw, r, e)
    case ChangePassword(userId, current, next) => ChangeOutcome(d, userId, current, next, r, e)
    case DeleteAccount(userId, password, stamp) => DeleteOutcome(d, userId, password, stamp, r, e)
    case Lapse(raw) => LogoutOutcome(d, raw, r, e)
  }

  lemma {:induction false} FoundById(users: seq<User>, userId: string)
    requires Apart(users)
    ensures forall u :: u in users && u.userId == userId ==> ById(users, userId) == Some(u)
    ensures ById(users, userId).Some? ==> ById(users, userId).value in users && ById(users, userId).value.userId == userId
  {
    if users != [] {
      FoundById(users[1..], userId);
      forall u | u in users && u.userId == userId ensures ById(users, userId) == Some(u) {
        var i :| 0 <= i < |users| && users[i] == u;
        assert i > 0 ==> users[i] == users[1..][i - 1];
      }
    }
  }

  lemma {:induction false} FoundByEmail(users: seq<User>, email: string)
    requires Apart(users)
    ensures forall u :: u in users && u.email == email ==> ByEmail(users, email) == Some(u)
    ensures ByEmail(users, email).Some? ==> ByEmail(users, email).value in users && ByEmail(users, email).value.email == email
  {
    if users != [] {
      FoundByEmail(users[1..], email);
      forall u | u in users && u.email == email ensures ByEmail(users, email) == Some(u) {
        var i :| 0 <= i < |users| && users[i] == u;
        assert i > 0 ==> users[i] == users[1..][i - 1];
      }
    }
  }

  /** Every call has the outcome its documents call for: who is refused, and exactly what changes. */
  lemma CallOutcome(d: Accounts, c: Call)
    requires Apart(d.users)
    ensures Outcome(d, c, Act(d, c).1, Act(d, c).0)
  {
    match c
    case Register(userId, email, _, _) => FoundById(d.users, userId); FoundByEmail(d.users, email);
    case Login(email, _, _) => FoundByEmail(d.users, email);
    case Refresh(raw, _, _) => FoundById(d.users, raw.userId);
    case Logout(_) =>
    case ChangePassword(userId, _, _) => FoundById(d.users, userId);
    case DeleteAccount(userId, _, stamp) => DeleteMeets(d, userId, c.password, stamp);
    case Lapse(_) =>
  }

  lemma DeleteMeets(d: Accounts, userId: string, password: string, stamp: nat)
    requires Apart(d.users)
    ensures var (e, r) := Act(d, DeleteAccount(userId, password, stamp)); DeleteOutcome(d, userId, password, stamp, r, e)
  {
    FoundById(d.users, userId);
    var u := ById(d.users, userId);
    if u.Some? { FoundByEmail(d.users, Vacated(u.value.email, stamp)); }
  }

  lemma ApartReplace(users: seq<User>, user: User)
    requires Apart(users)
    requires forall i :: 0 <= i < |users| && users[i].userId != user.userId ==> users[i].email != user.email
    ensures Apart(Replace(users, user))
  {
    var t := Replace(users, user);
    forall i, j | 0 <= i < j < |t| ensures t[i].userId != t[j].userId && t[i].email != t[j].email {
      assert users[i].userId != users[j].userId && users[i].email != users[j].email;
    }
  }

  lemma ApartStep(s: Accounts, c: Call)
    requires Apart(s.users)
    ensures Apart(Act(s, c).0.users)
  {
    match c
    case Register(userId, email, password, _) =>
      FoundById(s.users, userId);
      FoundByEmail(s.users, email);
      if ById(s.users, userId).None? && ByEmail(s.users, email).None? { ApartAppend(s.users, User(userId, email, password, true)); }
    case ChangePassword(userId, _, next) => ApartChange(s.users, userId, next);
    case DeleteAccount(userId, _, stamp) => ApartDelete(s.users, userId, stamp);
    case _ =>
  }

  lemma ApartAppend(users: seq<User>, user: User)
    requires Apart(users) && forall u :: u in users ==> u.userId != user.userId && u.email != user.email
    ensures Apart(users + [user])
  {
  }

  lemma ApartChange(users: seq<User>, userId: string, next: string)
    requires Apart(users)
    ensures ById(users, userId).Some? ==> Apart(Replace(users, ById(users, userId).value.(password := next)))
  {
    FoundById(users, userId);
    var u := ById(users, userId);
    if u.Some? {
      var k :| 0 <= k < |users| && users[k] == u.value;
      ApartReplace(users, u.value.(password := next));
    }
  }

  lemma ApartDelete(users: seq<User>, userId: string, stamp: nat)
    requires Apart(users)
    ensures ById(users, userId).Some? ==>
              var u := ById(users, userId).value;
              ByEmail(users, Vacated(u.email, stamp)).None? ==>
                Apart(Replace(users, u.(email := Vacated(u.email, stamp), isActive := false)))
  {
    FoundById(users, userId);
    var u := ById(users, userId);
    if u.Some? && ByEmail(users, Vacated(u.value.email, stamp)).None? {
      FoundByEmail(users, Vacated(u.value.email, stamp));
      ApartReplace(users, u.value.(email := Vacated(u.value.email, stamp), isActive := false));
    }
  }

  /** User ids and e-mail addresses stay unique in every run, so in every run each call has its outcome. */
  lemma {:induction false} ApartAlways(s: Accounts, calls: seq<Call>)
    requires Apart(s.users)
    ensures Apart(After(s, calls).users)
    decreases calls
  {
    if calls != [] {
      ApartStep(s, calls[0]);
      ApartAlways(Act(s, calls[0]).0, calls[1..]);
    }
  }

  /** In every run from an empty collection each call has its outcome. */
  lemma OutcomesAlways(calls: seq<Call>, c: Call)
    ensures var d := After(NOBODY, calls); Apart(d.users) && Outcome(d, c, Act(d, c).1, Act(d, c).0)
  {
    ApartAlways(NOBODY, calls);
    CallOutcome(After(NOBODY, calls), c);
  }

  class AccountService {
    var users: seq<User>
    var store: set<Token>
    ghost var minted: set<Token>
    ghost var accepted: seq<Token>

    ghost function View(): Accounts
      reads this
    {
      Accounts(users, store, minted, accepted)
    }

    constructor ()
      ensures View() == NOBODY
    {
      users, store, minted, accepted := [], {}, {}, [];
    }

    method IssueTokens(userId: string, at: nat) returns (r: Reply)
      modifies this
      ensures (View(), r) == Issue(old(View()), userId, at)
      ensures IssueOutcome(old(View()), userId, at, r, View())
    {
      var t := Token(userId, at);
      if t in store { return Denied(DuplicateKey); }
      store, minted := store + {t}, minted + {t};
      r := Issued(t);
    }

    method Register(userId: string, email: string, password: string, at: nat) returns (r: Reply)
      modifies this
      ensures (View(), r) == Act(old(View()), Call.Register(userId, email, password, at))
      ensures Apart(old(users)) ==> Outcome(old(View()), Call.Register(userId, email, password, at), r, View())
    {
      if Apart(users) { CallOutcome(View(), Call.Register(userId, email, password, at)); }
      if ById(users, userId).Some? || ByEmail(users, email).Some? { return Denied(EmailTaken); }
      users := users + [User(userId, email, password, true)];
      r := IssueTokens(userId, at);
    }

    method Login(email: string, password: string, at: nat) returns (r: Reply)
      modifies this
      ensures (View(), r) == Act(old(View()), Call.Login(email, password, at))
      ensures Apart(old(users)) ==> Outcome(old(View()), Call.Login(email, password, at), r, View())
    {
      if Apart(users) { CallOutcome(View(), Call.Login(email, password, at)); }
      var user := ByEmail(users, email);
      if user.None? || !user.value.isActive || user.value.password != password { return Denied(InvalidCredentials); }
      r := IssueTokens(user.value.userId, at);
    }

    method Refresh(raw: Token, valid: bool, at: nat) returns (r: Reply)
      modifies this
      ensures (View(), r) == Act(old(View()), Call.Refresh(raw, valid, at))
      ensures Apart(old(users)) ==> Outcome(old(View()), Call.Refresh(raw, valid, at), r, View())
    {
      if Apart(users) { CallOutcome(View(), Call.Refresh(raw, valid, at)); }
      if !valid { return Denied(InvalidRefreshToken); }
      if raw !in store {
        store := store - TokensOf(store, raw.userId);
        return Denied(RefreshTokenRevoked);
      }
      store, accepted := store - {raw}, accepted + [raw];
      var user := ById(users, raw.userId);
      if user.None? || !user.value.isActive { return Denied(UserNotFound); }
      r := IssueTokens(raw.userId, at);
    }

    method Logout(raw: Token) returns (r: Reply)
      modifies this
      ensures (View(), r) == Act(old(View()), Call.Logout(raw))
      ensures Apart(old(users)) ==> Outcome(old(View()), Call.Logout(raw), r, View())
    {
      if Apart(users) { CallOutcome(View(), Call.Logout(raw)); }
      store := store - {raw};
      r := Completed;
    }

    method ChangePassword(userId: string, current: string, next: string) returns (r: Reply)
      modifies this
      ensures (View(), r) == Act(old(View()), Call.ChangePassword(userId, current, next))
      ensures Apart(old(users)) ==> Outcome(old(View()), Call.ChangePassword(userId, current, next), r, View())
    {
      if Apart(users) { CallOutcome(View(), Call.ChangePassword(userId, current, next)); }
      var user := ById(users, userId);
      if user.None? || !user.value.isActive { return Denied(UserNotFound); }
      if user.value.password != current { return Denied(WrongPassword); }
      users := Replace(users, user.value.(password := next));
      store := store - TokensOf(store, userId);
      r := Completed;
    }

    method DeleteAccount(userId: string, password: string, stamp: nat) returns (r: Reply)
      modifies this
      ensures (View(), r) == Act(old(View()), Call.DeleteAccount(userId, password, stamp))
      ensures Apart(old(users)) ==> Outcome(old(View()), Call.DeleteAccount(userId, password, stamp), r, View())
    {
      if Apart(users) { CallOutcome(View(), Call.DeleteAccount(userId, password, stamp)); }
      var user := ById(users, userId);
      if user.None? || !user.value.isActive { return Denied(UserNotFound); }
      if user.value.password != password { return Denied(WrongPassword); }
      var vacated := Vacated(user.value.email, stamp);
      if ByEmail(users, vacated).Some? { return Denied(DuplicateKey); }
      users := Replace(users, user.value.(email := vacated, isActive := false));
      store := store - TokensOf(store, userId);
      r := Completed;
    }
  }
}
