/** The challenge tokens of apps/api/src/auth/auth.service.ts. */
module Challenges {
  import opened Wrappers

  const TTL := 5 * 60 * 1000

  datatype Challenge = Challenge(user: nat, expiresAt: int)

  function Sweep(m: map<nat, Challenge>, now: int): map<nat, Challenge> {
    map t | t in m && m[t].expiresAt >= now :: m[t]
  }

  function Issue(m: map<nat, Challenge>, token: nat, user: nat, now: int): map<nat, Challenge> {
    Sweep(m, now)[token := Challenge(user, now + TTL)]
  }

  /** The sweep reads the clock at `now`, the check itself at `later`. */
  function Consume(m: map<nat, Challenge>, token: nat, now: int, later: int): (map<nat, Challenge>, Option<Challenge>) {
    var swept := Sweep(m, now);
    if token !in swept then (swept, None)
    else (swept - {token}, if swept[token].expiresAt < later then None else Some(swept[token]))
  }

  class ChallengeStore {
    var challenges: map<nat, Challenge>

    constructor ()
      ensures challenges == map[]
    {
      challenges := map[];
    }

    method GcChallenges(now: int)
      modifies this
      ensures challenges == Sweep(old(challenges), now)
    {
      var tokens := challenges.Keys;
      while tokens != {}
        invariant tokens <= old(challenges).Keys
        invariant challenges == map t | t in old(challenges) && (t in tokens || old(challenges)[t].expiresAt >= now) :: old(challenges)[t]
        decreases |tokens|
      {
        var token :| token in tokens;
        if challenges[token].expiresAt < now {
          challenges := challenges - {token};
        }
        tokens := tokens - {token};
      }
    }

    /** The random token is a parameter. */
    method IssueChallenge(token: nat, user: nat, now: int)
      modifies this
      ensures challenges == Issue(old(challenges), token, user, now)
    {
      GcChallenges(now);
      challenges := challenges[token := Challenge(user, now + TTL)];
    }

    method ConsumeChallenge(token: nat, now: int, later: int) returns (r: Option<Challenge>)
      modifies this
      ensures (challenges, r) == Consume(old(challenges), token, now, later)
    {
      GcChallenges(now);
      if token !in challenges { return None; }
      var c := challenges[token];
      if c.expiresAt < later {
        challenges := challenges - {token};
        return None;
      }
      challenges := challenges - {token};
      return Some(c);
    }
  }

  // ---- histories ----

  datatype Call = Issued(token: nat, user: nat, now: int) | Presented(token: nat, now: int, later: int)

  function Apply(m: map<nat, Challenge>, c: Call): map<nat, Challenge> {
    match c
    case Issued(token, user, now) => Issue(m, token, user, now)
    case Presented(token, now, later) => Consume(m, token, now, later).0
  }

  function Store(calls: seq<Call>, n: nat): map<nat, Challenge>
    requires n <= |calls|
  {
    if n == 0 then map[] else Apply(Store(calls, n - 1), calls[n - 1])
  }

  /** What the i-th call returned, a presentation of a token. */
  function Outcome(calls: seq<Call>, i: nat): Option<Challenge>
    requires i < |calls| && calls[i].Presented?
  {
    Consume(Store(calls, i), calls[i].token, calls[i].now, calls[i].later).1
  }

  function End(c: Call): int {
    match c
    case Issued(_, _, now) => now
    case Presented(_, _, later) => later
  }

  ghost predicate ClockNeverGoesBack(calls: seq<Call>) {
    && (forall i :: 0 <= i < |calls| ==> calls[i].now <= End(calls[i]))
    && (forall i, j :: 0 <= i < j < |calls| ==> End(calls[i]) <= calls[j].now)
  }

  ghost predicate TokensAreFresh(calls: seq<Call>) {
    forall i, j :: 0 <= i < j < |calls| && calls[i].Issued? && calls[j].Issued? ==> calls[i].token != calls[j].token
  }

  /** The token issued by call j is not presented by any call before n. */
  ghost predicate Untouched(calls: seq<Call>, j: nat, n: nat)
    requires j < n <= |calls|
  {
    forall k :: j < k < n && calls[k].Presented? ==> calls[k].token != calls[j].token
  }

  /** What is in the store was issued, and not presented since. */
  lemma {:induction false} Origin(calls: seq<Call>, n: nat, token: nat) returns (j: nat)
    requires n <= |calls| && token in Store(calls, n)
    ensures j < n && calls[j].Issued? && calls[j].token == token && Untouched(calls, j, n)
    ensures Store(calls, n)[token] == Challenge(calls[j].user, calls[j].now + TTL)
    decreases n
  {
    var last := calls[n - 1];
    if last.Issued? && last.token == token {
      j := n - 1;
    } else {
      j := Origin(calls, n - 1, token);
    }
  }

  /** What was issued and not presented is in the store, as long as no sweep came after its expiry. */
  lemma {:induction false} Kept(calls: seq<Call>, j: nat, n: nat)
    requires j < n <= |calls| && calls[j].Issued? && Untouched(calls, j, n) && TokensAreFresh(calls)
    requires forall k :: j < k < n ==> calls[k].now <= calls[j].now + TTL
    ensures calls[j].token in Store(calls, n)
    ensures Store(calls, n)[calls[j].token] == Challenge(calls[j].user, calls[j].now + TTL)
    decreases n
  {
    if j < n - 1 {
      Kept(calls, j, n - 1);
    }
  }

  /** Call j issued the token of presentation i, in time and unpresented since. */
  ghost predicate Honours(calls: seq<Call>, j: nat, i: nat)
    requires j < i < |calls| && calls[i].Presented?
  {
    calls[j].Issued? && calls[j].token == calls[i].token && Untouched(calls, j, i) && calls[i].later <= calls[j].now + TTL
  }

  /** The sweeping store answers like one that never forgets: a token is accepted exactly if it was
      issued, is not expired, and was not presented before. */
  lemma AcceptedIff(calls: seq<Call>, i: nat, user: nat)
    requires ClockNeverGoesBack(calls) && TokensAreFresh(calls) && i < |calls| && calls[i].Presented?
    ensures (Outcome(calls, i).Some? && Outcome(calls, i).value.user == user)
            <==> exists j :: 0 <= j < i && Honours(calls, j, i) && calls[j].user == user
  {
    if Outcome(calls, i).Some? {
      var j := Origin(calls, i, calls[i].token);
      assert Honours(calls, j, i);
    }
    forall j: nat | j < i && Honours(calls, j, i) && calls[j].user == user
      ensures Outcome(calls, i).Some? && Outcome(calls, i).value.user == user
    {
      assert forall k :: j < k < i ==> calls[k].now <= End(calls[k]) <= calls[i].now;
      Kept(calls, j, i);
    }
  }

  lemma SameIssue(calls: seq<Call>, j: nat, k: nat)
    requires TokensAreFresh(calls) && j < |calls| && k < |calls|
    requires calls[j].Issued? && calls[k].Issued? && calls[j].token == calls[k].token
    ensures j == k
  {
  }

  /** No token is accepted twice. */
  lemma AcceptedOnce(calls: seq<Call>, i: nat, k: nat)
    requires ClockNeverGoesBack(calls) && TokensAreFresh(calls) && i < k < |calls|
    requires calls[i].Presented? && calls[k].Presented? && calls[i].token == calls[k].token
    requires Outcome(calls, i).Some?
    ensures Outcome(calls, k).None?
  {
    var j := Origin(calls, i, calls[i].token);
    if Outcome(calls, k).Some? {
      var l := Origin(calls, k, calls[k].token);
      SameIssue(calls, j, l);
      assert false;
    }
  }
}
