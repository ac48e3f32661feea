/**
 * Runs of refreshes that may overlap. No transaction spans a refresh: its lookup, its update and the issue of
 * new tokens are statements of their own, and those of other requests can come between them.
 */
module TokenRuns {
  import opened Common
  import opened Tokens
  import opened TokenChains

  /** `Whole` is any operation but a refresh. Refreshes that pass the guard are numbered as they start. */
  datatype Step =
    | Whole(op: AuthOp)
    | Read(token: Token, at: int)
    | Spend(call: nat, at: int)
    | Finish(call: nat, next: Token, at: int)

  /** A refresh that has read its token and found it good. */
  datatype Call = Call(token: Token, userId: Id, tenantId: Id, spent: bool)

  /** `calls`: the refreshes under way. `issued`: every token issued so far, in order. */
  datatype Auth = Auth(s: AuthState, started: nat, calls: map<nat, Call>, issued: seq<Issue>)

  predicate IsFresh(m: Auth, token: Token) {
    Sha256(token) !in m.s.tokens
  }

  predicate Enabled(m: Auth, step: Step) {
    match step
    case Whole(op) => !op.Refresh? && (op.Login? ==> IsFresh(m, op.next))
    case Read(_, _) => true
    case Spend(call, _) => call in m.calls && !m.calls[call].spent && !IsFresh(m, m.calls[call].token)
    case Finish(call, next, _) => call in m.calls && m.calls[call].spent && IsFresh(m, next)
  }

  function Answer(m: Auth, step: Step): Reply
    requires Enabled(m, step)
  {
    match step
    case Whole(op) => Perform(m.s, op).1
    case Read(token, at) => if Usable(m.s, token, at) then Done else Unauthorized
    case Spend(_, _) => Done
    case Finish(call, next, at) => Finished(m.s, m.calls[call].userId, m.calls[call].tenantId, next, at).1
  }

  function NextAuth(m: Auth, step: Step): Auth
    requires Enabled(m, step)
  {
    match step
    case Whole(op) =>
      var (s, r) := Perform(m.s, op);
      m.(s := s, issued := if r.Issued? then m.issued + [Issue(r.token, None)] else m.issued)
    case Read(token, at) =>
      if !Usable(m.s, token, at) then m
      else
        var row := m.s.tokens[Sha256(token)];
        m.(started := m.started + 1, calls := m.calls[m.started := Call(token, row.userId, row.tenantId, false)])
    case Spend(call, at) =>
      m.(s := Revoked(m.s, m.calls[call].token, at), calls := m.calls[call := m.calls[call].(spent := true)])
    case Finish(call, next, at) =>
      var c := m.calls[call];
      var (s, r) := Finished(m.s, c.userId, c.tenantId, next, at);
      Auth(s, m.started, m.calls - {call},
           if r.Issued? then m.issued + [Issue(next, Some(Position(m.issued, c.token)))] else m.issued)
  }

  /** The state a run reaches, or None when some step could not happen. */
  function RunAuth(members: set<(Id, Id)>, steps: seq<Step>): Option<Auth> {
    if steps == [] then Some(Auth(AuthState(map[], members), 0, map[], []))
    else
      var n := |steps| - 1;
      match RunAuth(members, steps[..n])
      case None => None
      case Some(m) => if Enabled(m, steps[n]) then Some(NextAuth(m, steps[n])) else None
  }

  lemma RunAuthAppend(members: set<(Id, Id)>, steps: seq<Step>, step: Step)
    ensures RunAuth(members, steps + [step]) ==
            match RunAuth(members, steps)
            case None => None
            case Some(m) => if Enabled(m, step) then Some(NextAuth(m, step)) else None
  {
    assert (steps + [step])[..|steps|] == steps;
  }

  lemma {:induction false} PrefixRuns(members: set<(Id, Id)>, steps: seq<Step>, n: nat)
    requires RunAuth(members, steps).Some? && n <= |steps|
    ensures RunAuth(members, steps[..n]).Some?
    ensures n < |steps| ==>
              var m := RunAuth(members, steps[..n]).value;
              Enabled(m, steps[n]) && RunAuth(members, steps[..n + 1]) == Some(NextAuth(m, steps[n]))
    decreases |steps|
  {
    if n == |steps| {
      assert steps[..n] == steps;
    } else {
      var front := steps[..|steps| - 1];
      PrefixRuns(members, front, n);
      assert front[..n] == steps[..n];
      if n + 1 < |steps| {
        assert front[..n + 1] == steps[..n + 1];
      } else {
        assert steps[..n + 1] == steps;
      }
    }
  }

  /** Three steps with nothing between them are the refresh as one operation. */
  lemma UndisturbedRefresh(m: Auth, token: Token, next: Token, at: int)
    requires Usable(m.s, token, at) && IsFresh(m, next) && m.started !in m.calls
    ensures var read, spend, finish := Read(token, at), Spend(m.started, at), Finish(m.started, next, at);
            var m1 := NextAuth(m, read);
            && Enabled(m1, spend)
            && var m2 := NextAuth(m1, spend);
            && Enabled(m2, finish)
            && (NextAuth(m2, finish).s, Answer(m2, finish)) == Perform(m.s, Refresh(token, next, at))
            && NextAuth(m2, finish).calls == m.calls
  {
  }

  // ---- What every run keeps, however refreshes overlap ----

  /** Calls are numbered, their tokens are stored, and a spent one is revoked. */
  predicate CallsFit(m: Auth) {
    forall c :: c in m.calls ==>
      c < m.started && Sha256(m.calls[c].token) in m.s.tokens && (m.calls[c].spent ==> RevokedIn(m.s, m.calls[c].token))
  }

  /** The row of a token that is stored before a step, after it: only the revocation can change. */
  lemma RowAfterStep(m: Auth, step: Step, token: Token)
    requires Enabled(m, step) && Sha256(token) in m.s.tokens
    ensures var s := NextAuth(m, step).s;
            && Sha256(token) in s.tokens
            && var row, row' := m.s.tokens[Sha256(token)], s.tokens[Sha256(token)];
            && row' == row.(revokedAt := row'.revokedAt)
            && row'.revokedAt ==
               if step.Spend? && m.calls[step.call].token == token then Some(step.at)
               else if row.revokedAt.None? && step.Whole? && step.op.Logout? && step.op.token == token then Some(step.op.at)
               else row.revokedAt
  {
  }

  lemma CallsFitAfterStep(m: Auth, step: Step)
    requires Enabled(m, step) && CallsFit(m)
    ensures CallsFit(NextAuth(m, step))
  {
    forall c | c in m.calls
      ensures Sha256(m.calls[c].token) in NextAuth(m, step).s.tokens
      ensures RevokedIn(m.s, m.calls[c].token) ==> RevokedIn(NextAuth(m, step).s, m.calls[c].token)
    {
      RowAfterStep(m, step, m.calls[c].token);
    }
  }

  lemma {:induction false} CallsAlwaysFit(members: set<(Id, Id)>, steps: seq<Step>)
    requires RunAuth(members, steps).Some?
    ensures CallsFit(RunAuth(members, steps).value)
  {
    if steps != [] {
      var n := |steps| - 1;
      CallsAlwaysFit(members, steps[..n]);
      CallsFitAfterStep(RunAuth(members, steps[..n]).value, steps[n]);
    }
  }

  predicate SameOwner(row: TokenRow, row': TokenRow) {
    row'.userId == row.userId && row'.tenantId == row.tenantId && row'.expiresAt == row.expiresAt
  }

  /** In every run stored tokens stay, with owner and expiry, and what is revoked stays revoked. */
  lemma {:induction false} TokensStay(members: set<(Id, Id)>, steps: seq<Step>, i: nat, token: Token)
    requires RunAuth(members, steps).Some? && i <= |steps| && RunAuth(members, steps[..i]).Some?
    requires Sha256(token) in RunAuth(members, steps[..i]).value.s.tokens
    ensures var s, s' := RunAuth(members, steps[..i]).value.s, RunAuth(members, steps).value.s;
            && Sha256(token) in s'.tokens
            && SameOwner(s.tokens[Sha256(token)], s'.tokens[Sha256(token)])
            && (RevokedIn(s, token) ==> RevokedIn(s', token))
    decreases |steps|
  {
    if i == |steps| {
      assert steps[..i] == steps;
    } else {
      var n := |steps| - 1;
      assert steps[..n][..i] == steps[..i];
      TokensStay(members, steps[..n], i, token);
      RowAfterStep(RunAuth(members, steps[..n]).value, steps[n], token);
    }
  }

  // ---- How often a token is accepted ----

  /** The `n`-th step is a refresh that reads this token and is not turned away. */
  predicate Accepts(members: set<(Id, Id)>, steps: seq<Step>, n: nat, token: Token)
    requires n < |steps|
  {
    && steps[n].Read? && steps[n].token == token
    && RunAuth(members, steps[..n]).Some? && Answer(RunAuth(members, steps[..n]).value, steps[n]) != Unauthorized
  }

  /** The refresh `c` has read its token and not yet written. */
  predicate HasRead(m: Auth, c: nat) {
    c in m.calls && !m.calls[c].spent
  }

  ghost predicate UnderWay(m: Auth, token: Token) {
    exists c :: HasRead(m, c) && m.calls[c].token == token
  }

  /** The `n`-th step reads a good token that another refresh has read and not yet written. */
  ghost predicate Overlaps(members: set<(Id, Id)>, steps: seq<Step>, n: nat, token: Token)
    requires n < |steps|
  {
    Accepts(members, steps, n, token) && UnderWay(RunAuth(members, steps[..n]).value, token)
  }

  /** A revoked token is not accepted again: not after a refresh spent it, and not after a logout. */
  lemma NeverAcceptedOnceRevoked(members: set<(Id, Id)>, steps: seq<Step>, i: nat, j: nat, token: Token)
    requires RunAuth(members, steps).Some? && i <= j < |steps|
    requires RunAuth(members, steps[..i]).Some? && RevokedIn(RunAuth(members, steps[..i]).value.s, token)
    ensures !Accepts(members, steps, j, token)
  {
    PrefixRuns(members, steps, j);
    assert steps[..j][..i] == steps[..i];
    TokensStay(members, steps[..j], i, token);
  }

  lemma UnderWayAfterStep(m: Auth, step: Step, token: Token)
    requires Enabled(m, step) && CallsFit(m) && (UnderWay(m, token) || RevokedIn(m.s, token))
    ensures UnderWay(NextAuth(m, step), token) || RevokedIn(NextAuth(m, step).s, token)
  {
    if RevokedIn(m.s, token) {
      RowAfterStep(m, step, token);
    } else {
      var c :| HasRead(m, c) && m.calls[c].token == token;
      if !(step.Spend? && step.call == c) {
        assert HasRead(NextAuth(m, step), c) && NextAuth(m, step).calls[c] == m.calls[c];
      }
    }
  }

  /** An accepted token is under way until it is revoked. */
  lemma {:induction false} AcceptedIsUnderWay(members: set<(Id, Id)>, steps: seq<Step>, i: nat, token: Token)
    requires RunAuth(members, steps).Some? && i < |steps| && Accepts(members, steps, i, token)
    ensures UnderWay(RunAuth(members, steps).value, token) || RevokedIn(RunAuth(members, steps).value.s, token)
  {
    var n := |steps| - 1;
    var m := RunAuth(members, steps[..n]).value;
    if i == n {
      assert HasRead(NextAuth(m, steps[n]), m.started);
    } else {
      assert steps[..n][..i] == steps[..i];
      AcceptedIsUnderWay(members, steps[..n], i, token);
      CallsAlwaysFit(members, steps[..n]);
      UnderWayAfterStep(m, steps[n], token);
    }
  }

  lemma {:induction false} UnderWayWasAccepted(members: set<(Id, Id)>, steps: seq<Step>, token: Token) returns (i: nat)
    requires RunAuth(members, steps).Some? && UnderWay(RunAuth(members, steps).value, token)
    ensures i < |steps| && Accepts(members, steps, i, token)
  {
    var n := |steps| - 1;
    if Accepts(members, steps, n, token) {
      i := n;
    } else {
      i := UnderWayWasAccepted(members, steps[..n], token);
      assert steps[..n][..i] == steps[..i];
    }
  }

  /** An overlapping refresh accepts a token that has been accepted before. */
  lemma OverlapAcceptsAgain(members: set<(Id, Id)>, steps: seq<Step>, n: nat, token: Token) returns (i: nat)
    requires n < |steps| && Overlaps(members, steps, n, token)
    ensures i < n && Accepts(members, steps, i, token)
  {
    i := UnderWayWasAccepted(members, steps[..n], token);
    assert steps[..n][..i] == steps[..i];
  }

  /** A token can only be accepted again while the refresh that accepted it first has not written. */
  lemma SecondAcceptanceOverlaps(members: set<(Id, Id)>, steps: seq<Step>, i: nat, j: nat, token: Token)
    requires i < j < |steps| && Accepts(members, steps, i, token) && Accepts(members, steps, j, token)
    ensures Overlaps(members, steps, j, token)
  {
    assert steps[..j][..i] == steps[..i];
    AcceptedIsUnderWay(members, steps[..j], i, token);
  }

  predicate AcceptedOnce(members: set<(Id, Id)>, steps: seq<Step>, token: Token) {
    forall i, j :: 0 <= i < j < |steps| && Accepts(members, steps, i, token) ==> !Accepts(members, steps, j, token)
  }

  /**
   * A token is accepted at most once iff no refresh reads it, still good, while another has read it and not
   * yet written.
   */
  lemma AcceptedAtMostOnceIff(members: set<(Id, Id)>, steps: seq<Step>, token: Token)
    ensures AcceptedOnce(members, steps, token) <==>
            forall n :: 0 <= n < |steps| ==> !Overlaps(members, steps, n, token)
  {
    if n :| 0 <= n < |steps| && Overlaps(members, steps, n, token) {
      var i := OverlapAcceptsAgain(members, steps, n, token);
      assert Accepts(members, steps, n, token);
    } else {
      forall i, j | 0 <= i < j < |steps| && Accepts(members, steps, i, token)
        ensures !Accepts(members, steps, j, token)
      {
        if Accepts(members, steps, j, token) {
          SecondAcceptanceOverlaps(members, steps, i, j, token);
          assert false;
        }
      }
    }
  }

  /** A refresh that ends for want of a membership has spent its token for good. */
  lemma FailedRefreshSpendsToken(members: set<(Id, Id)>, steps: seq<Step>, i: nat, j: nat)
    requires RunAuth(members, steps).Some? && i < j < |steps| && steps[i].Finish?
    requires RunAuth(members, steps[..i]).Some? && Enabled(RunAuth(members, steps[..i]).value, steps[i])
    requires Answer(RunAuth(members, steps[..i]).value, steps[i]) == MembershipGone
    ensures !Accepts(members, steps, j, RunAuth(members, steps[..i]).value.calls[steps[i].call].token)
  {
    CallsAlwaysFit(members, steps[..i]);
    NeverAcceptedOnceRevoked(members, steps, i, j, RunAuth(members, steps[..i]).value.calls[steps[i].call].token);
  }

  /** No refresh reads the token after it was logged out. */
  lemma LoggedOutIsNeverAccepted(members: set<(Id, Id)>, steps: seq<Step>, i: nat, j: nat, token: Token)
    requires RunAuth(members, steps).Some? && i < j < |steps|
    requires steps[i].Whole? && steps[i].op.Logout? && steps[i].op.token == token
    requires RunAuth(members, steps[..i]).Some? && Sha256(token) in RunAuth(members, steps[..i]).value.s.tokens
    ensures !Accepts(members, steps, j, token)
  {
    PrefixRuns(members, steps, i);
    RowAfterStep(RunAuth(members, steps[..i]).value, steps[i], token);
    NeverAcceptedOnceRevoked(members, steps, i + 1, j, token);
  }

  // ---- When a revocation is redated ----

  /** The `n`-th step is a refresh that writes although its token has been revoked since it read it. */
  predicate LateSpend(members: set<(Id, Id)>, steps: seq<Step>, n: nat, token: Token)
    requires n < |steps|
  {
    && steps[n].Spend? && RunAuth(members, steps[..n]).Some?
    && var m := RunAuth(members, steps[..n]).value;
    steps[n].call in m.calls && m.calls[steps[n].call].token == token && RevokedIn(m.s, token)
  }

  /** A revocation is never undone, and keeps its date as long as no refresh of the token writes late. */
  lemma {:induction false} RevocationIsPermanent(members: set<(Id, Id)>, steps: seq<Step>, i: nat, token: Token)
    requires RunAuth(members, steps).Some? && i <= |steps|
    requires RunAuth(members, steps[..i]).Some? && RevokedIn(RunAuth(members, steps[..i]).value.s, token)
    requires forall n :: i <= n < |steps| ==> !LateSpend(members, steps, n, token)
    ensures var s, s' := RunAuth(members, steps[..i]).value.s, RunAuth(members, steps).value.s;
            Sha256(token) in s'.tokens && s'.tokens[Sha256(token)] == s.tokens[Sha256(token)]
    decreases |steps|
  {
    if i == |steps| {
      assert steps[..i] == steps;
    } else {
      var n := |steps| - 1;
      var front := steps[..n];
      assert front[..i] == steps[..i];
      forall k | i <= k < n
        ensures !LateSpend(members, front, k, token)
      {
        assert !LateSpend(members, steps, k, token) && front[..k] == steps[..k];
      }
      RevocationIsPermanent(members, front, i, token);
      RowAfterStep(RunAuth(members, front).value, steps[n], token);
      assert !LateSpend(members, steps, n, token);
    }
  }

  /** A late write gives the revocation its own date. */
  lemma LateSpendRedates(members: set<(Id, Id)>, steps: seq<Step>, n: nat, token: Token)
    requires RunAuth(members, steps).Some? && n < |steps| && LateSpend(members, steps, n, token)
    ensures RunAuth(members, steps[..n + 1]).Some?
    ensures var s := RunAuth(members, steps[..n + 1]).value.s;
            Sha256(token) in s.tokens && s.tokens[Sha256(token)].revokedAt == Some(steps[n].at)
  {
    PrefixRuns(members, steps, n);
    RowAfterStep(RunAuth(members, steps[..n]).value, steps[n], token);
  }

  /** What makes a write late: between its read and its write, the `m`-th step, something else revoked the token. */
  lemma {:induction false} LateSpendOverlapsRevocation(members: set<(Id, Id)>, steps: seq<Step>, call: nat) returns (m: nat)
    requires RunAuth(members, steps).Some?
    requires var a := RunAuth(members, steps).value;
             HasRead(a, call) && RevokedIn(a.s, a.calls[call].token)
    ensures m < |steps| && RunAuth(members, steps[..m]).Some? && RunAuth(members, steps[..m + 1]).Some?
    ensures var a, a' := RunAuth(members, steps[..m]).value, RunAuth(members, steps[..m + 1]).value;
            && HasRead(a, call) && HasRead(a', call)
            && a.calls[call] == a'.calls[call] == RunAuth(members, steps).value.calls[call]
            && !RevokedIn(a.s, a.calls[call].token) && RevokedIn(a'.s, a.calls[call].token)
  {
    var n := |steps| - 1;
    var front, a, b := steps[..n], RunAuth(members, steps[..n]).value, RunAuth(members, steps).value;
    CallsAlwaysFit(members, front);
    assert steps[..n + 1] == steps;
    assert call in a.calls && a.calls[call] == b.calls[call];
    if RevokedIn(a.s, b.calls[call].token) {
      m := LateSpendOverlapsRevocation(members, front, call);
      assert front[..m] == steps[..m] && front[..m + 1] == steps[..m + 1];
    } else {
      m := n;
    }
  }

  // ---- Refreshes whose read and write nothing comes between ----

  /** While a refresh has read and not written, the next step is its write. */
  ghost predicate Undisturbed(members: set<(Id, Id)>, steps: seq<Step>) {
    forall n, c :: 0 <= n < |steps| && RunAuth(members, steps[..n]).Some? && HasRead(RunAuth(members, steps[..n]).value, c) ==>
      steps[n].Spend? && steps[n].call == c
  }

  lemma UndisturbedDoNotOverlap(members: set<(Id, Id)>, steps: seq<Step>, n: nat, token: Token)
    requires Undisturbed(members, steps) && n < |steps|
    ensures !Overlaps(members, steps, n, token)
  {

  }

  lemma UndisturbedReadsAreGood(members: set<(Id, Id)>, steps: seq<Step>, n: nat, call: nat)
    requires Undisturbed(members, steps) && n <= |steps|
    requires RunAuth(members, steps[..n]).Some? && HasRead(RunAuth(members, steps[..n]).value, call)
    ensures var m := RunAuth(members, steps[..n]).value; !RevokedIn(m.s, m.calls[call].token)
  {
    if n > 0 {
      assert steps[..n][..n - 1] == steps[..n - 1];
      assert !HasRead(RunAuth(members, steps[..n - 1]).value, call);
    }
  }

  lemma UndisturbedAreNotLate(members: set<(Id, Id)>, steps: seq<Step>, n: nat, token: Token)
    requires RunAuth(members, steps).Some? && Undisturbed(members, steps) && n < |steps|
    ensures !LateSpend(members, steps, n, token)
  {
    PrefixRuns(members, steps, n);
    if steps[n].Spend? {
      UndisturbedReadsAreGood(members, steps, n, steps[n].call);
    }
  }

  /**
   * If nothing comes between read and write, no refreshes overlap, each token is accepted at most once and no
   * revocation is redated.
   */
  lemma UndisturbedRunsAreSafe(members: set<(Id, Id)>, steps: seq<Step>, i: nat, j: nat, token: Token)
    requires RunAuth(members, steps).Some? && Undisturbed(members, steps) && i < j < |steps|
    ensures NoOverlaps(members, steps)
    ensures Accepts(members, steps, i, token) ==> !Accepts(members, steps, j, token)
    ensures RunAuth(members, steps[..i]).Some? && RevokedIn(RunAuth(members, steps[..i]).value.s, token) ==>
              var s, s' := RunAuth(members, steps[..i]).value.s, RunAuth(members, steps).value.s;
              Sha256(token) in s'.tokens && s'.tokens[Sha256(token)] == s.tokens[Sha256(token)]
  {
    forall n | 0 <= n < |steps|
      ensures !Overlaps(members, steps, n, token) && !LateSpend(members, steps, n, token)
    {
      UndisturbedDoNotOverlap(members, steps, n, token);
      UndisturbedAreNotLate(members, steps, n, token);
    }
    forall n | 0 <= n < |steps| && steps[n].Read?
      ensures !Overlaps(members, steps, n, steps[n].token)
    {
      UndisturbedDoNotOverlap(members, steps, n, steps[n].token);
    }
    AcceptedAtMostOnceIff(members, steps, token);
    if RunAuth(members, steps[..i]).Some? && RevokedIn(RunAuth(members, steps[..i]).value.s, token) {
      RevocationIsPermanent(members, steps, i, token);
    }
  }

  // ---- One live token per login ----

  predicate NoSuccessor(log: seq<Issue>, token: Token) {
    forall i, p :: 0 <= i < |log| && 0 <= p < |log| && log[i].parent == Some(p) ==> log[p].token != token
  }

  /** No two refreshes under way have the same token. */
  predicate OneCallEach(calls: map<nat, Call>) {
    forall c, d :: c in calls && d in calls && calls[c].token == calls[d].token ==> c == d
  }

  predicate Unanswered(calls: map<nat, Call>, log: seq<Issue>) {
    forall c :: c in calls ==> NoSuccessor(log, calls[c].token)
  }

  /** The log matches the table, and the refreshes under way have a token each, which nothing has replaced yet. */
  predicate Rotating(m: Auth) {
    CallsFit(m) && LogMatches(m.s, m.issued) && OneCallEach(m.calls) && Unanswered(m.calls, m.issued)
  }

  ghost predicate NoOverlaps(members: set<(Id, Id)>, steps: seq<Step>) {
    forall n :: 0 <= n < |steps| && steps[n].Read? ==> !Overlaps(members, steps, n, steps[n].token)
  }

  lemma UnrevokedHasNoSuccessor(s: AuthState, log: seq<Issue>, token: Token)
    requires ParentsRevoked(s, log) && !RevokedIn(s, token)
    ensures NoSuccessor(log, token)
  {
  }

  /** A newly issued token replaces the one at `parent` and no other. */
  lemma SuccessorOfParentOnly(log: seq<Issue>, e: Issue, token: Token)
    requires NoSuccessor(log, token)
    requires forall i :: 0 <= i < |log| && log[i].parent.Some? ==> log[i].parent.value < i
    requires e.parent.Some? ==> e.parent.value < |log| && log[e.parent.value].token != token
    ensures NoSuccessor(log + [e], token)
  {
  }

  lemma ReadKeepsRotating(m: Auth, step: Step)
    requires step.Read? && Rotating(m) && (Usable(m.s, step.token, step.at) ==> !UnderWay(m, step.token))
    ensures Rotating(NextAuth(m, step))
  {
    CallsFitAfterStep(m, step);
    if Usable(m.s, step.token, step.at) {
      UnrevokedHasNoSuccessor(m.s, m.issued, step.token);
      forall c | c in m.calls
        ensures m.calls[c].token != step.token
      {
        assert m.calls[c].spent || HasRead(m, c);
      }
    }
  }

  lemma SpendKeepsRotating(m: Auth, step: Step)
    requires step.Spend? && Enabled(m, step) && Rotating(m)
    ensures Rotating(NextAuth(m, step))
  {
    CallsFitAfterStep(m, step);
    LogAfterRevocation(m.s, m.issued, m.calls[step.call].token, step.at);
  }

  lemma IssueKeepsUnanswered(calls: map<nat, Call>, log: seq<Issue>, e: Issue)
    requires Unanswered(calls, log) && Lineage(log)
    requires e.parent.Some? ==> e.parent.value < |log| && forall c :: c in calls ==> calls[c].token != log[e.parent.value].token
    ensures Unanswered(calls, log + [e])
  {
    forall c | c in calls
      ensures NoSuccessor(log + [e], calls[c].token)
    {
      SuccessorOfParentOnly(log, e, calls[c].token);
    }
  }

  lemma FinishKeepsRotating(m: Auth, step: Step)
    requires step.Finish? && Enabled(m, step) && Rotating(m)
    ensures Rotating(NextAuth(m, step))
  {
    var c := m.calls[step.call];
    CallsFitAfterStep(m, step);
    if (c.userId, c.tenantId) in m.s.members {
      var p := Position(m.issued, c.token);
      assert Position(m.issued, Sha256(c.token).token) < |m.issued|;
      assert NoSuccessor(m.issued, c.token);
      LogAfterIssue(m.s, m.issued, c.userId, c.tenantId, step.next, step.at, Some(p));
      IssueKeepsUnanswered(m.calls - {step.call}, m.issued, Issue(step.next, Some(p)));
    }
  }

  lemma WholeKeepsRotating(m: Auth, step: Step)
    requires step.Whole? && Enabled(m, step) && Rotating(m)
    ensures Rotating(NextAuth(m, step))
  {
    CallsFitAfterStep(m, step);
    if step.op.Login? && Perform(m.s, step.op).1.Issued? {
      LogAfterIssue(m.s, m.issued, step.op.userId, step.op.tenantId, step.op.next, step.op.at, None);
      IssueKeepsUnanswered(m.calls, m.issued, Issue(step.op.next, None));
    } else if step.op.Logout? && Sha256(step.op.token) in m.s.tokens {
      LogAfterRevocation(m.s, m.issued, step.op.token, step.op.at);
    }
  }

  lemma {:induction false} RunsMatchTheirLog(members: set<(Id, Id)>, steps: seq<Step>)
    requires RunAuth(members, steps).Some? && NoOverlaps(members, steps)
    ensures Rotating(RunAuth(members, steps).value)
  {
    if steps != [] {
      var n := |steps| - 1;
      var front, m := steps[..n], RunAuth(members, steps[..n]).value;
      forall k | 0 <= k < n && front[k].Read?
        ensures !Overlaps(members, front, k, front[k].token)
      {
        assert front[..k] == steps[..k] && !Overlaps(members, steps, k, steps[k].token);
      }
      RunsMatchTheirLog(members, front);
      match steps[n]
      case Whole(_) => WholeKeepsRotating(m, steps[n]);
      case Read(token, at) =>
        assert !Overlaps(members, steps, n, token);
        ReadKeepsRotating(m, steps[n]);
      case Spend(_, _) => SpendKeepsRotating(m, steps[n]);
      case Finish(_, _, _) => FinishKeepsRotating(m, steps[n]);
    }
  }

  /**
   * As long as refreshes of the same token do not overlap, whatever else does, the tokens that descend from one
   * login form a chain in which each was replaced by the next, and at most the last of them is not revoked.
   */
  lemma OneLiveTokenPerLogin(members: set<(Id, Id)>, steps: seq<Step>, i: nat, j: nat)
    requires RunAuth(members, steps).Some? && NoOverlaps(members, steps)
    requires i < j < |RunAuth(members, steps).value.issued|
    ensures var m := RunAuth(members, steps).value;
            && Lineage(m.issued)
            && (Root(m.issued, i) == Root(m.issued, j) ==>
                  Replaced(m.issued, i, j) && RevokedIn(m.s, m.issued[i].token))
  {
    RunsMatchTheirLog(members, steps);
    var m := RunAuth(members, steps).value;
    if Root(m.issued, i) == Root(m.issued, j) {
      SameLoginIsOneChain(m.issued, i, j);
      ReplacedIsRevoked(m.s, m.issued, i, j);
    }
  }

  // ---- What overlap does ----

  /** The write and the end of a refresh, in a row. */
  function Completed(m: Auth, call: nat, next: Token, at: int): Auth
    requires HasRead(m, call) && Sha256(m.calls[call].token) in m.s.tokens
  {
    var c := m.calls[call];
    Auth(WithToken(Revoked(m.s, c.token, at), c.userId, c.tenantId, next, at), m.started, m.calls - {call},
         m.issued + [Issue(next, Some(Position(m.issued, c.token)))])
  }

  lemma RunCompletes(members: set<(Id, Id)>, steps: seq<Step>, m: Auth, call: nat, next: Token, at: int)
    requires RunAuth(members, steps) == Some(m) && HasRead(m, call)
    requires Sha256(m.calls[call].token) in m.s.tokens && IsFresh(m, next)
    requires (m.calls[call].userId, m.calls[call].tenantId) in m.s.members
    ensures RunAuth(members, steps + [Spend(call, at)] + [Finish(call, next, at)]) == Some(Completed(m, call, next, at))
  {
    RunAuthAppend(members, steps, Spend(call, at));
    RunAuthAppend(members, steps + [Spend(call, at)], Finish(call, next, at));
    assert NextAuth(m, Spend(call, at)).calls - {call} == m.calls - {call};
  }

  /** A login, and two refreshes that have read its token. */
  lemma TwoHaveRead(user: Id, tenant: Id, a: Token)
    ensures var members := {(user, tenant)};
            var row, call := TokenRow(user, tenant, REFRESH_TOKEN_TTL_MS, None), Call(a, user, tenant, false);
            && var login := [Whole(Login(user, tenant, a, 0))];
            && RunAuth(members, login) == Some(Auth(AuthState(map[Sha256(a) := row], members), 0, map[], [Issue(a, None)]))
            && RunAuth(members, login + [Read(a, 0)] + [Read(a, 0)]) ==
               Some(Auth(AuthState(map[Sha256(a) := row], members), 2, map[0 := call, 1 := call], [Issue(a, None)]))
            && Accepts(members, login + [Read(a, 0)] + [Read(a, 0)], 1, a)
            && Accepts(members, login + [Read(a, 0)] + [Read(a, 0)], 2, a)
  {
    var members, login := {(user, tenant)}, [Whole(Login(user, tenant, a, 0))];
    var row, call := TokenRow(user, tenant, REFRESH_TOKEN_TTL_MS, None), Call(a, user, tenant, false);
    RunAuthAppend(members, [], login[0]);
    RunAuthAppend(members, login, Read(a, 0));
    RunAuthAppend(members, login + [Read(a, 0)], Read(a, 0));
    var none: map<TokenHash, TokenRow> := map[];
    var idle: map<nat, Call> := map[];
    assert [] + login == login && none[Sha256(a) := row] == map[Sha256(a) := row];
    assert [] + [Issue(a, None)] == [Issue(a, None)];
    assert RunAuth(members, []) == Some(Auth(AuthState(none, members), 0, idle, []));
    assert Perform(AuthState(none, members), login[0].op) == (AuthState(map[Sha256(a) := row], members), Issued(a));
    assert idle[0 := call][1 := call] == map[0 := call, 1 := call];
    var steps := login + [Read(a, 0)] + [Read(a, 0)];
    assert steps[..1] == login && steps[..2] == login + [Read(a, 0)];
  }

  /** The state once both of two refreshes that had read `a` have gone on. */
  lemma BothComplete(m: Auth, a: Token, b: Token, c: Token, later: int)
    requires a != b && a != c && b != c && 0 <= later <= REFRESH_TOKEN_TTL_MS
    requires HasRead(m, 0) && HasRead(m, 1) && m.calls[0].token == m.calls[1].token == a
    requires m.s.tokens.Keys == {Sha256(a)} && m.issued == [Issue(a, None)]
    ensures var m1 := Completed(m, 0, b, 0);
            && HasRead(m1, 1) && Sha256(a) in m1.s.tokens && IsFresh(m1, c) && m1.s.members == m.s.members
            && var m2 := Completed(m1, 1, c, later);
            && m2.issued == [Issue(a, None), Issue(b, Some(0)), Issue(c, Some(0))]
            && Usable(m2.s, b, later) && Usable(m2.s, c, later)
            && Sha256(a) in m2.s.tokens && m2.s.tokens[Sha256(a)].revokedAt == Some(later)
  {
    assert Position([Issue(a, None)], a) == 0;
    assert Position([Issue(a, None)] + [Issue(b, Some(0))], a) == 0;
  }

  /** Login, two refreshes that read the token before either writes, and then both go on. */
  function Fork(user: Id, tenant: Id, a: Token, b: Token, c: Token, later: int): seq<Step> {
    [Whole(Login(user, tenant, a, 0))] + [Read(a, 0)] + [Read(a, 0)]
    + [Spend(0, 0)] + [Finish(0, b, 0)] + [Spend(1, later)] + [Finish(1, c, later)]
  }

  lemma ForkRuns(user: Id, tenant: Id, a: Token, b: Token, c: Token, later: int)
    requires a != b && a != c && b != c && 0 <= later <= REFRESH_TOKEN_TTL_MS
    ensures var row, call := TokenRow(user, tenant, REFRESH_TOKEN_TTL_MS, None), Call(a, user, tenant, false);
            var m := Auth(AuthState(map[Sha256(a) := row], {(user, tenant)}), 2, map[0 := call, 1 := call], [Issue(a, None)]);
            && HasRead(m, 0) && HasRead(Completed(m, 0, b, 0), 1) && Sha256(a) in Completed(m, 0, b, 0).s.tokens
            && RunAuth({(user, tenant)}, Fork(user, tenant, a, b, c, later)) ==
               Some(Completed(Completed(m, 0, b, 0), 1, c, later))
  {
    var members, begun := {(user, tenant)}, [Whole(Login(user, tenant, a, 0))] + [Read(a, 0)] + [Read(a, 0)];
    TwoHaveRead(user, tenant, a);
    var m := RunAuth(members, begun).value;
    BothComplete(m, a, b, c, later);
    RunCompletes(members, begun, m, 0, b, 0);
    RunCompletes(members, begun + [Spend(0, 0)] + [Finish(0, b, 0)], Completed(m, 0, b, 0), 1, c, later);
  }

  /**
   * Two overlapping refreshes of one token are both accepted: the token has two successors, both usable, and
   * its revocation carries the date of the second.
   */
  lemma OverlappingRefreshesFork(user: Id, tenant: Id, a: Token, b: Token, c: Token, later: int)
    requires a != b && a != c && b != c && 0 <= later <= REFRESH_TOKEN_TTL_MS
    ensures var members, steps := {(user, tenant)}, Fork(user, tenant, a, b, c, later);
            && RunAuth(members, steps).Some?
            && Accepts(members, steps, 1, a) && Accepts(members, steps, 2, a)
            && var m := RunAuth(members, steps).value;
            && m.issued == [Issue(a, None), Issue(b, Some(0)), Issue(c, Some(0))]
            && Usable(m.s, b, later) && Usable(m.s, c, later)
            && Sha256(a) in m.s.tokens && m.s.tokens[Sha256(a)].revokedAt == Some(later)
  {
    var row, call := TokenRow(user, tenant, REFRESH_TOKEN_TTL_MS, None), Call(a, user, tenant, false);
    var m := Auth(AuthState(map[Sha256(a) := row], {(user, tenant)}), 2, map[0 := call, 1 := call], [Issue(a, None)]);
    ForkRuns(user, tenant, a, b, c, later);
    BothComplete(m, a, b, c, later);
    ForkAccepts(user, tenant, a, b, c, later);
  }

  lemma ForkAccepts(user: Id, tenant: Id, a: Token, b: Token, c: Token, later: int)
    ensures var members, steps := {(user, tenant)}, Fork(user, tenant, a, b, c, later);
            Accepts(members, steps, 1, a) && Accepts(members, steps, 2, a)
  {
    var members, steps := {(user, tenant)}, Fork(user, tenant, a, b, c, later);
    var begun := [Whole(Login(user, tenant, a, 0))] + [Read(a, 0)] + [Read(a, 0)];
    TwoHaveRead(user, tenant, a);
    assert steps[..1] == begun[..1] && steps[..2] == begun[..2] && steps[1] == begun[1] && steps[2] == begun[2];
  }

  /** A refresh that has read its token when it is logged out still issues a new one. */
  lemma RefreshUnderWayOutlivesLogout(user: Id, tenant: Id, a: Token, b: Token)
    requires a != b
    ensures var members := {(user, tenant)};
            var steps := [Whole(Login(user, tenant, a, 0))] + [Read(a, 0)] + [Read(a, 0)]
                         + [Whole(Logout(a, 0))] + [Spend(0, 0)] + [Finish(0, b, 0)];
            RunAuth(members, steps).Some? && Usable(RunAuth(members, steps).value.s, b, 0)
  {
    var members, begun := {(user, tenant)}, [Whole(Login(user, tenant, a, 0))] + [Read(a, 0)] + [Read(a, 0)];
    TwoHaveRead(user, tenant, a);
    RunAuthAppend(members, begun, Whole(Logout(a, 0)));
    RunCompletes(members, begun + [Whole(Logout(a, 0))], NextAuth(RunAuth(members, begun).value, Whole(Logout(a, 0))), 0, b, 0);
  }
}
