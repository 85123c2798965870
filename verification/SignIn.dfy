/**
 Who is let in, said over histories of login and verify calls: which calls succeed, and what they leave of
 the account.
 */
module SignIn {
  import opened Wrappers
  import opened Lockout
  import opened Challenges
  import opened Auth

  /** One more failure: it counts, and the fifth one locks for fifteen minutes and starts again. */
  predicate OneFailure(a: User, b: User, at: int) {
    && b == a.(guard := b.guard)
    && (if a.guard.failedAttempts < 4 then b.guard == Guard(a.guard.failedAttempts + 1, a.guard.lockedUntil)
        else b.guard == Guard(0, Some(at + 900_000)))
  }

  /** No failures on record and no lock; the rest of the account as before. */
  predicate Cleared(a: User, b: User) {
    b == a.(guard := b.guard) && b.guard.failedAttempts == 0 && b.guard.lockedUntil == None
  }

  ghost predicate OthersSame(a: map<nat, User>, b: map<nat, User>, user: nat) {
    b.Keys == a.Keys && forall u :: u in a && u != user ==> b[u] == a[u]
  }

  /** Expired tokens may be forgotten, this one is gone, and no other is lost or changed. */
  ghost predicate Withdrawn(a: map<nat, Challenge>, b: map<nat, Challenge>, token: nat, now: int) {
    && token !in b
    && (forall t :: t in b ==> t in a && b[t] == a[t])
    && (forall t :: t in a && t != token && a[t].expiresAt >= now ==> t in b)
  }

  // ---- single calls ----

  /** A login attempt gets a token exactly for a known account that is not locked and is set up, and the
      right password. */
  predicate LetIn(s: AuthState, user: nat, passwordOk: bool, checkedAt: int) {
    && user in s.users && (s.users[user].guard.lockedUntil.None? || s.users[user].guard.lockedUntil.value <= checkedAt)
    && s.users[user].enrolled && passwordOk
  }

  lemma LoginAnswers(s: AuthState, user: nat, passwordOk: bool, checkedAt: int, recordedAt: int, token: nat)
    ensures var (next, r) := Login(s, user, passwordOk, checkedAt, recordedAt, token);
            && (r.TokenIssued? <==> LetIn(s, user, passwordOk, checkedAt))
            && (r.TokenIssued? ==>
                  && r.token == token && next.users == s.users && token in next.challenges
                  && next.challenges[token].user == user && next.challenges[token].expiresAt == recordedAt + 300_000
                  && Withdrawn(s.challenges, next.challenges - {token}, token, recordedAt))
            && (!r.TokenIssued? ==> next.challenges == s.challenges)
  {
  }

  /** What a refusal says, and that only a wrong password counts. */
  lemma LoginRefusals(s: AuthState, user: nat, passwordOk: bool, checkedAt: int, recordedAt: int, token: nat)
    requires user in s.users ==> s.users[user].guard.failedAttempts < 5
    requires !LetIn(s, user, passwordOk, checkedAt)
    ensures var (next, r) := Login(s, user, passwordOk, checkedAt, recordedAt, token);
            if user !in s.users then next == s && r == Unauthenticated
            else
              var u := s.users[user];
              if u.guard.lockedUntil.Some? && u.guard.lockedUntil.value > checkedAt then next == s && r == AccountLocked
              else if !u.enrolled then next == s && r == SetupIncomplete
              else
                && user in next.users && OneFailure(u, next.users[user], recordedAt) && OthersSame(s.users, next.users, user)
                && r == if u.guard.failedAttempts == 4 then AccountLocked else Unauthenticated
  {
  }

  /** The token is in the store and has not expired. */
  predicate Valid(s: AuthState, token: nat, user: nat, now: int) {
    token in s.challenges && s.challenges[token].user == user && s.challenges[token].expiresAt >= now
  }

  /** Verifying a TOTP code signs in exactly the holder of a valid token who has a secret, with the right
      code; it clears that account. The token is used up in any case. */
  lemma TotpAnswers(s: AuthState, token: nat, codeOk: bool, checkedAt: int, recordedAt: int, user: nat)
    ensures var (next, r) := VerifyTotp(s, token, codeOk, checkedAt, recordedAt);
            && (r == SignedIn(user) <==> Valid(s, token, user, checkedAt) && user in s.users && s.users[user].hasSecret && codeOk)
            && (r == SignedIn(user) ==>
                  user in next.users && Cleared(s.users[user], next.users[user]) && OthersSame(s.users, next.users, user))
            && Withdrawn(s.challenges, next.challenges, token, checkedAt)
  {
  }

  /** A wrong code of such a holder is one failure; a call without a valid token touches no account. */
  lemma TotpRefusals(s: AuthState, token: nat, codeOk: bool, checkedAt: int, recordedAt: int, user: nat)
    requires user in s.users ==> s.users[user].guard.failedAttempts < 5
    ensures var (next, r) := VerifyTotp(s, token, codeOk, checkedAt, recordedAt);
            && (Valid(s, token, user, checkedAt) && user in s.users && s.users[user].hasSecret && !codeOk ==>
                  && r == Rejected && user in next.users
                  && OneFailure(s.users[user], next.users[user], recordedAt) && OthersSame(s.users, next.users, user))
            && (Valid(s, token, user, checkedAt) && (user !in s.users || !s.users[user].hasSecret) ==> r == Rejected && next.users == s.users)
            && (!(token in s.challenges && s.challenges[token].expiresAt >= checkedAt) ==> r == Rejected && next.users == s.users)
  {
  }

  /** Some stored code verifies. */
  ghost predicate HasCode(codes: seq<string>, verifies: string -> bool) {
    exists i :: 0 <= i < |codes| && codes[i] != "" && verifies(codes[i])
  }

  /** A recovery code signs in exactly the holder of a valid token of whose codes one verifies; it clears
      that account and burns one code, the rest keeping their order. */
  lemma RecoveryAnswers(s: AuthState, token: nat, verifies: string -> bool, checkedAt: int, recordedAt: int, user: nat)
    ensures var (next, r) := VerifyRecovery(s, token, verifies, checkedAt, recordedAt);
            && (r == SignedIn(user) <==>
                  Valid(s, token, user, checkedAt) && user in s.users && HasCode(s.users[user].recoveryCodes, verifies))
            && (r == SignedIn(user) ==>
                  && user in next.users && OthersSame(s.users, next.users, user)
                  && Cleared(s.users[user].(recoveryCodes := next.users[user].recoveryCodes), next.users[user])
                  && OneBurnt(s.users[user].recoveryCodes, next.users[user].recoveryCodes, verifies))
            && Withdrawn(s.challenges, next.challenges, token, checkedAt)
  {
    var c := Consume(s.challenges, token, checkedAt, checkedAt).1;
    if c.Some? && c.value.user in s.users {
      var codes := s.users[c.value.user].recoveryCodes;
      var m := FirstMatch(codes, verifies, 0);
      if m.Some? {
        assert codes[m.value] != "" && verifies(codes[m.value]);
      }
    }
  }

  /** The first code that verifies is taken out. */
  ghost predicate OneBurnt(a: seq<string>, b: seq<string>, verifies: string -> bool) {
    exists i :: 0 <= i < |a| && a[i] != "" && verifies(a[i]) && b == a[..i] + a[i + 1..]
                && forall k :: 0 <= k < i ==> !(a[k] != "" && verifies(a[k]))
  }

  lemma RecoveryRefusals(s: AuthState, token: nat, verifies: string -> bool, checkedAt: int, recordedAt: int, user: nat)
    requires user in s.users ==> s.users[user].guard.failedAttempts < 5
    ensures var (next, r) := VerifyRecovery(s, token, verifies, checkedAt, recordedAt);
            && (Valid(s, token, user, checkedAt) && user in s.users && !HasCode(s.users[user].recoveryCodes, verifies) ==>
                  && r == Rejected && user in next.users
                  && OneFailure(s.users[user], next.users[user], recordedAt) && OthersSame(s.users, next.users, user))
            && (Valid(s, token, user, checkedAt) && user !in s.users ==> r == Rejected && next.users == s.users)
            && (!(token in s.challenges && s.challenges[token].expiresAt >= checkedAt) ==> r == Rejected && next.users == s.users)
  {
    var c := Consume(s.challenges, token, checkedAt, checkedAt).1;
    if c.Some? && c.value.user in s.users {
      var codes := s.users[c.value.user].recoveryCodes;
      var m := FirstMatch(codes, verifies, 0);
      if m.Some? {
        assert codes[m.value] != "" && verifies(codes[m.value]);
      }
    }
  }

  // ---- histories ----

  /** Whom a token lets verify, and since when: the last login that was let in with it, if no verify call
      presented it since. */
  datatype Bearer = Bearer(user: nat, since: int)

  predicate Presents(op: Op, token: nat) {
    !op.TryLogin? && op.token == token
  }

  function BearerOf(s: AuthState, ops: seq<Op>, token: nat): Option<Bearer>
    decreases |ops|
  {
    if ops == [] then None
    else
      var before, op := ops[..|ops| - 1], ops[|ops| - 1];
      if op.TryLogin? && op.token == token && LetIn(Run(s, before), op.user, op.ok, op.checkedAt) then Some(Bearer(op.user, op.recordedAt))
      else if Presents(op, token) then None
      else BearerOf(s, before, token)
  }

  ghost predicate InOrder(ops: seq<Op>, now: int) {
    forall i :: 0 <= i < |ops| ==> ops[i].checkedAt <= ops[i].recordedAt <= now
  }

  /** Issued to this user by a successful login, not presented since, and at most five minutes old. */
  ghost predicate Holds(s: AuthState, ops: seq<Op>, token: nat, user: nat, now: int) {
    var b := BearerOf(s, ops, token);
    b.Some? && b.value.user == user && now <= b.value.since + 300_000
  }

  lemma StepHolds(s: AuthState, op: Op, token: nat, user: nat, now: int)
    requires op.checkedAt <= op.recordedAt <= now
    ensures Valid(Step(s, op), token, user, now)
            <==> if op.TryLogin? && op.token == token && LetIn(s, op.user, op.ok, op.checkedAt)
                 then op.user == user && now <= op.recordedAt + 300_000
                 else !Presents(op, token) && Valid(s, token, user, now)
  {
    match op
    case TryLogin(u, ok, checkedAt, recordedAt, t) => LoginAnswers(s, u, ok, checkedAt, recordedAt, t);
    case TryTotp(t, ok, checkedAt, recordedAt) => TotpAnswers(s, t, ok, checkedAt, recordedAt, user);
    case TryRecovery(t, verifies, checkedAt, recordedAt) => RecoveryAnswers(s, t, verifies, checkedAt, recordedAt, user);
    hide Login, VerifyTotp, VerifyRecovery;
  }

  lemma {:induction false} HoldsIff(s: AuthState, ops: seq<Op>, token: nat, user: nat, now: int)
    requires s.challenges == map[] && InOrder(ops, now)
    ensures Valid(Run(s, ops), token, user, now) <==> Holds(s, ops, token, user, now)
    decreases |ops|
  {
    hide Step, LetIn, Valid;
    if ops == [] {
      NoneValid(s, token, user, now);
    } else {
      var before, op := ops[..|ops| - 1], ops[|ops| - 1];
      HoldsIff(s, before, token, user, now);
      StepHolds(Run(s, before), op, token, user, now);
    }
  }

  lemma NoneValid(s: AuthState, token: nat, user: nat, now: int)
    requires s.challenges == map[]
    ensures !Valid(s, token, user, now)
  {
  }

  /** After any history: a TOTP call signs in a user exactly if the token was issued to that user by a login
      in the last five minutes and presented to no call since, the user exists and has a secret, and the
      code is right. */
  lemma TotpSignsInIff(s: AuthState, ops: seq<Op>, token: nat, codeOk: bool, checkedAt: int, recordedAt: int, user: nat)
    requires s.challenges == map[] && InOrder(ops, checkedAt)
    ensures var now := Run(s, ops);
            VerifyTotp(now, token, codeOk, checkedAt, recordedAt).1 == SignedIn(user)
            <==> Holds(s, ops, token, user, checkedAt) && user in now.users && now.users[user].hasSecret && codeOk
  {
    HoldsIff(s, ops, token, user, checkedAt);
    TotpAnswers(Run(s, ops), token, codeOk, checkedAt, recordedAt, user);
    hide VerifyTotp, Holds, Valid, Run, Cleared, OthersSame, Withdrawn;
  }

  /** The same for a recovery code. */
  lemma RecoverySignsInIff(s: AuthState, ops: seq<Op>, token: nat, verifies: string -> bool, checkedAt: int, recordedAt: int, user: nat)
    requires s.challenges == map[] && InOrder(ops, checkedAt)
    ensures var now := Run(s, ops);
            VerifyRecovery(now, token, verifies, checkedAt, recordedAt).1 == SignedIn(user)
            <==> Holds(s, ops, token, user, checkedAt) && user in now.users && HasCode(now.users[user].recoveryCodes, verifies)
  {
    HoldsIff(s, ops, token, user, checkedAt);
    RecoveryAnswers(Run(s, ops), token, verifies, checkedAt, recordedAt, user);
    hide VerifyRecovery, Holds, Valid, Run, Cleared, OthersSame, Withdrawn, HasCode, OneBurnt;
  }
}
