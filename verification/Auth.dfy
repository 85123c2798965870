/** login and the verify steps of apps/api/src/auth/auth.service.ts. A password or code check is a
    boolean that the environment supplies. */
module Auth {
  import opened Wrappers
  import opened Lockout
  import opened Challenges

  datatype AuthState = AuthState(users: map<nat, User>, challenges: map<nat, Challenge>)

  datatype LoginReply = TokenIssued(token: nat) | AccountLocked | SetupIncomplete | Unauthenticated

  datatype VerifyReply = SignedIn(user: nat) | Rejected

  function WithGuard(s: AuthState, user: nat, g: Guard): AuthState {
    if user in s.users then s.(users := s.users[user := s.users[user].(guard := g)]) else s
  }

  function Fail(s: AuthState, user: nat, now: int): AuthState {
    if user in s.users then WithGuard(s, user, Failed(s.users[user].guard, now)) else s
  }

  /** The password of `user` is checked at `checkedAt`; what follows happens at `recordedAt`. */
  function Login(s: AuthState, user: nat, passwordOk: bool, checkedAt: int, recordedAt: int, token: nat): (AuthState, LoginReply) {
    if user !in s.users then (s, Unauthenticated)
    else if Locked(s.users[user].guard, checkedAt) then (s, AccountLocked)
    else if !s.users[user].enrolled then (s, SetupIncomplete)
    else if passwordOk then (s.(challenges := Issue(s.challenges, token, user, recordedAt)), TokenIssued(token))
    else (Fail(s, user, recordedAt),
          if Failed(s.users[user].guard, recordedAt).failedAttempts == 0 then AccountLocked else Unauthenticated)
  }

  function VerifyTotp(s: AuthState, token: nat, codeOk: bool, checkedAt: int, recordedAt: int): (AuthState, VerifyReply) {
    var (left, c) := Consume(s.challenges, token, checkedAt, checkedAt);
    var next := s.(challenges := left);
    if c.None? || c.value.user !in s.users || !s.users[c.value.user].hasSecret then (next, Rejected)
    else if codeOk then (WithGuard(next, c.value.user, CLEARED), SignedIn(c.value.user))
    else (Fail(next, c.value.user, recordedAt), Rejected)
  }

  /** The first stored code that is there and verifies. */
  function FirstMatch(codes: seq<string>, verifies: string -> bool, from: nat): (r: Option<nat>)
    requires from <= |codes|
    ensures r.Some? ==> from <= r.value < |codes| && codes[r.value] != "" && verifies(codes[r.value])
    ensures r.Some? ==> forall k :: from <= k < r.value ==> !(codes[k] != "" && verifies(codes[k]))
    ensures r.None? ==> forall k :: from <= k < |codes| ==> !(codes[k] != "" && verifies(codes[k]))
    decreases |codes| - from
  {
    if from == |codes| then None
    else if codes[from] != "" && verifies(codes[from]) then Some(from)
    else FirstMatch(codes, verifies, from + 1)
  }

  function VerifyRecovery(s: AuthState, token: nat, verifies: string -> bool, checkedAt: int, recordedAt: int): (AuthState, VerifyReply) {
    var (left, c) := Consume(s.challenges, token, checkedAt, checkedAt);
    var next := s.(challenges := left);
    if c.None? || c.value.user !in s.users then (next, Rejected)
    else
      var user := c.value.user;
      var codes := s.users[user].recoveryCodes;
      match FirstMatch(codes, verifies, 0)
      case None => (Fail(next, user, recordedAt), Rejected)
      case Some(i) =>
        var burnt := s.users[user].(recoveryCodes := codes[..i] + codes[i + 1..], guard := CLEARED);
        (next.(users := s.users[user := burnt]), SignedIn(user))
  }

  class AuthService {
    const table: AdminUsers
    const lockout: LockoutService
    const store: ChallengeStore

    constructor (table: AdminUsers, lockout: LockoutService, store: ChallengeStore)
      requires lockout.table == table
      ensures this.table == table && this.lockout == lockout && this.store == store
    {
      this.table, this.lockout, this.store := table, lockout, store;
    }

    ghost predicate Wired() {
      lockout.table == table
    }

    function Now(): AuthState
      reads table, store
    {
      AuthState(table.rows, store.challenges)
    }

    method LogIn(user: nat, passwordOk: bool, checkedAt: int, recordedAt: int, token: nat) returns (r: LoginReply)
      requires Wired()
      modifies table, store
      ensures (Now(), r) == Login(old(Now()), user, passwordOk, checkedAt, recordedAt, token)
    {
      if user !in table.rows { return Unauthenticated; }
      var locked := lockout.IsLocked(user, checkedAt);
      if locked { return AccountLocked; }
      if !table.rows[user].enrolled { return SetupIncomplete; }
      if !passwordOk {
        var result := lockout.RecordFailure(user, recordedAt);
        assert result.Success?;
        return if result.value.0 then AccountLocked else Unauthenticated;
      }
      store.IssueChallenge(token, user, recordedAt);
      return TokenIssued(token);
    }

    method VerifyTotpCode(token: nat, codeOk: bool, checkedAt: int, recordedAt: int) returns (r: VerifyReply)
      requires Wired()
      modifies table, store
      ensures (Now(), r) == VerifyTotp(old(Now()), token, codeOk, checkedAt, recordedAt)
    {
      var challenge := store.ConsumeChallenge(token, checkedAt, checkedAt);
      if challenge.None? { return Rejected; }
      var user := challenge.value.user;
      if user !in table.rows || !table.rows[user].hasSecret { return Rejected; }
      if !codeOk {
        var _ := lockout.RecordFailure(user, recordedAt);
        return Rejected;
      }
      var _ := lockout.RecordSuccess(user);
      return SignedIn(user);
    }

    method VerifyRecoveryCode(token: nat, verifies: string -> bool, checkedAt: int, recordedAt: int) returns (r: VerifyReply)
      requires Wired()
      modifies table, store
      ensures (Now(), r) == VerifyRecovery(old(Now()), token, verifies, checkedAt, recordedAt)
    {
      hide Consume;
      var challenge := store.ConsumeChallenge(token, checkedAt, checkedAt);
      if challenge.None? { return Rejected; }
      var user := challenge.value.user;
      if user !in table.rows { return Rejected; }
      var codes := table.rows[user].recoveryCodes;
      var matchedIndex := -1;
      var i := 0;
      while i < |codes|
        invariant 0 <= i <= |codes|
        invariant matchedIndex == -1 && FirstMatch(codes, verifies, 0) == FirstMatch(codes, verifies, i)
      {
        var hash := codes[i];
        if hash != "" && verifies(hash) {
          matchedIndex := i;
          break;
        }
        i := i + 1;
      }
      if matchedIndex < 0 {
        var _ := lockout.RecordFailure(user, recordedAt);
        return Rejected;
      }
      assert FirstMatch(codes, verifies, 0) == Some(matchedIndex);
      ghost var rows := table.rows;
      var remaining := codes[..matchedIndex] + codes[matchedIndex + 1..];
      table.rows := table.rows[user := table.rows[user].(recoveryCodes := remaining)];
      var _ := lockout.RecordSuccess(user);
      assert table.rows == rows[user := rows[user].(recoveryCodes := remaining, guard := CLEARED)];
      return SignedIn(user);
    }
  }

  // ---- runs ----

  datatype Op =
    | TryLogin(user: nat, ok: bool, checkedAt: int, recordedAt: int, token: nat)
    | TryTotp(token: nat, ok: bool, checkedAt: int, recordedAt: int)
    | TryRecovery(token: nat, verifies: string -> bool, checkedAt: int, recordedAt: int)

  function Step(s: AuthState, op: Op): AuthState {
    match op
    case TryLogin(user, ok, checkedAt, recordedAt, token) => Login(s, user, ok, checkedAt, recordedAt, token).0
    case TryTotp(token, ok, checkedAt, recordedAt) => VerifyTotp(s, token, ok, checkedAt, recordedAt).0
    case TryRecovery(token, verifies, checkedAt, recordedAt) => VerifyRecovery(s, token, verifies, checkedAt, recordedAt).0
  }

  function Run(s: AuthState, ops: seq<Op>): AuthState
    decreases |ops|
  {
    if ops == [] then s else Step(Run(s, ops[..|ops| - 1]), ops[|ops| - 1])
  }

  /** The password of this user is checked and is wrong. */
  predicate WrongPassword(s: AuthState, op: Op, user: nat) {
    && op.TryLogin? && op.user == user && !op.ok
    && user in s.users && s.users[user].enrolled && !Locked(s.users[user].guard, op.checkedAt)
  }

  /** A second factor succeeds for this user: recordSuccess. */
  predicate Clears(s: AuthState, op: Op, user: nat) {
    match op
    case TryLogin(_, _, _, _, _) => false
    case TryTotp(token, ok, checkedAt, recordedAt) => VerifyTotp(s, token, ok, checkedAt, recordedAt).1 == SignedIn(user)
    case TryRecovery(token, verifies, checkedAt, recordedAt) => VerifyRecovery(s, token, verifies, checkedAt, recordedAt).1 == SignedIn(user)
  }

  function WrongPasswords(s: AuthState, ops: seq<Op>, user: nat): nat
    decreases |ops|
  {
    if ops == [] then 0
    else
      var before := ops[..|ops| - 1];
      WrongPasswords(s, before, user) + if WrongPassword(Run(s, before), ops[|ops| - 1], user) then 1 else 0
  }

  ghost predicate NeverClears(s: AuthState, ops: seq<Op>, user: nat)
    decreases |ops|
  {
    ops == [] || (NeverClears(s, ops[..|ops| - 1], user) && !Clears(Run(s, ops[..|ops| - 1]), ops[|ops| - 1], user))
  }

  /** Counts stay below the limit: it is what recordFailure resets them for. */
  ghost predicate BelowLimit(s: AuthState) {
    forall u :: u in s.users ==> s.users[u].guard.failedAttempts < MAX_ATTEMPTS
  }

  lemma StepStaysBelow(s: AuthState, op: Op)
    requires BelowLimit(s)
    ensures BelowLimit(Step(s, op)) && Step(s, op).users.Keys == s.users.Keys
  {
  }

  lemma {:induction false} RunStaysBelow(s: AuthState, ops: seq<Op>)
    requires BelowLimit(s)
    ensures BelowLimit(Run(s, ops)) && Run(s, ops).users.Keys == s.users.Keys
    decreases |ops|
  {
    if ops != [] {
      RunStaysBelow(s, ops[..|ops| - 1]);
      StepStaysBelow(Run(s, ops[..|ops| - 1]), ops[|ops| - 1]);
    }
  }

  /** Wrong passwords that this user can still enter before `until`. */
  function Allowance(s: AuthState, user: nat, until: int): int {
    if user !in s.users || Locked(s.users[user].guard, until - 1) then 0 else MAX_ATTEMPTS - s.users[user].guard.failedAttempts
  }

  /** Between `from` and a lockout period later, every wrong password uses up one of them and nothing adds any. */
  lemma StepUsesAllowance(s: AuthState, op: Op, user: nat, from: int)
    requires BelowLimit(s) && op.checkedAt <= op.recordedAt && from <= op.recordedAt < from + LOCKOUT
    requires !Clears(s, op, user)
    ensures var until := from + LOCKOUT;
            Allowance(Step(s, op), user, until) + (if WrongPassword(s, op, user) then 1 else 0) <= Allowance(s, user, until)
  {
  }

  ghost predicate InWindow(ops: seq<Op>, from: int) {
    forall i :: 0 <= i < |ops| ==> ops[i].checkedAt <= ops[i].recordedAt && from <= ops[i].recordedAt < from + LOCKOUT
  }

  lemma {:induction false} WindowUsesAllowance(s: AuthState, ops: seq<Op>, user: nat, from: int)
    requires BelowLimit(s) && InWindow(ops, from) && NeverClears(s, ops, user)
    ensures Allowance(Run(s, ops), user, from + LOCKOUT) + WrongPasswords(s, ops, user) <= Allowance(s, user, from + LOCKOUT)
    decreases |ops|
  {
    if ops != [] {
      var before, op := ops[..|ops| - 1], ops[|ops| - 1];
      WindowUsesAllowance(s, before, user, from);
      RunStaysBelow(s, before);
      StepUsesAllowance(Run(s, before), op, user, from);
    }
  }

  /** After any history, any half-open 15 minutes without a completed login see at most five wrong
      passwords per account. */
  lemma AtMostFiveWrongPasswords(s: AuthState, history: seq<Op>, window: seq<Op>, user: nat, from: int)
    requires BelowLimit(s) && InWindow(window, from) && NeverClears(Run(s, history), window, user)
    ensures WrongPasswords(Run(s, history), window, user) <= MAX_ATTEMPTS
  {
    RunStaysBelow(s, history);
    var now := Run(s, history);
    RunStaysBelow(now, window);
    WindowUsesAllowance(now, window, user, from);
  }

  /** Recovery codes are used up: one success removes one occurrence of the code that matched. */
  lemma RecoveryBurnsOne(s: AuthState, token: nat, verifies: string -> bool, checkedAt: int, recordedAt: int)
    ensures var (next, r) := VerifyRecovery(s, token, verifies, checkedAt, recordedAt);
            r.SignedIn? ==>
              && r.user in s.users && r.user in next.users
              && exists code :: verifies(code) && code != "" && code in s.users[r.user].recoveryCodes
                                && multiset(next.users[r.user].recoveryCodes) == multiset(s.users[r.user].recoveryCodes) - multiset{code}
  {
    var (next, r) := VerifyRecovery(s, token, verifies, checkedAt, recordedAt);
    if r.SignedIn? {
      var codes := s.users[r.user].recoveryCodes;
      var i := FirstMatch(codes, verifies, 0).value;
      assert codes == codes[..i] + [codes[i]] + codes[i + 1..];
      assert multiset(codes) == multiset(codes[..i]) + multiset{codes[i]} + multiset(codes[i + 1..]);
    }
  }
}
