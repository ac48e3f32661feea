/** Which refreshes are accepted, and for whom, by the steps of a run alone. */
module TokenAcceptance {
  import opened Tokens
  import opened TokenChains
  import opened TokenRuns

  /** The `i`-th step was answered with this token: a login, or the end of a refresh. */
  predicate Issues(members: set<(Id, Id)>, steps: seq<Step>, i: nat, token: Token)
    requires i < |steps|
  {
    var run := RunAuth(members, steps[..i]);
    && (steps[i].Finish? || (steps[i].Whole? && steps[i].op.Login?))
    && run.Some? && Enabled(run.value, steps[i]) && Answer(run.value, steps[i]) == Issued(token)
  }

  function IssuedAt(step: Step): int
    requires step.Finish? || (step.Whole? && step.op.Login?)
  {
    if step.Finish? then step.at else step.op.at
  }

  /** The `m`-th step logs the token out, or is the write of a refresh that had read it. */
  predicate Ends(members: set<(Id, Id)>, steps: seq<Step>, m: nat, token: Token)
    requires m < |steps|
  {
    || (steps[m].Whole? && steps[m].op.Logout? && steps[m].op.token == token)
    || (steps[m].Spend? && RunAuth(members, steps[..m]).Some?
        && steps[m].call in RunAuth(members, steps[..m]).value.calls
        && RunAuth(members, steps[..m]).value.calls[steps[m].call].token == token)
  }

  /** Issued by the `i`-th step, and ended by none since. */
  predicate LiveSince(members: set<(Id, Id)>, steps: seq<Step>, i: nat, token: Token)
    requires i < |steps|
  {
    Issues(members, steps, i, token) && forall m :: i < m < |steps| ==> !Ends(members, steps, m, token)
  }

  predicate Stored(s: AuthState, token: Token) {
    Sha256(token) in s.tokens
  }

  lemma PrefixFacts(members: set<(Id, Id)>, steps: seq<Step>, n: nat, i: nat, token: Token)
    requires i < n <= |steps|
    ensures Issues(members, steps[..n], i, token) == Issues(members, steps, i, token)
    ensures Ends(members, steps[..n], i, token) == Ends(members, steps, i, token)
  {
    assert steps[..n][..i] == steps[..i];
  }

  /** What one step does to a token: issue it, end it, or neither. */
  lemma StepOnToken(m: Auth, step: Step, token: Token)
    requires Enabled(m, step)
    ensures var s, issues := NextAuth(m, step).s, Answer(m, step) == Issued(token);
            && (Stored(s, token) <==> Stored(m.s, token) || issues)
            && (issues ==> !Stored(m.s, token) && !RevokedIn(s, token) && (step.Finish? || (step.Whole? && step.op.Login?))
                           && s.tokens[Sha256(token)].expiresAt == IssuedAt(step) + REFRESH_TOKEN_TTL_MS)
            && (Stored(m.s, token) ==> s.tokens[Sha256(token)].expiresAt == m.s.tokens[Sha256(token)].expiresAt)
            && (Stored(m.s, token) ==>
                  (RevokedIn(s, token) <==> RevokedIn(m.s, token)
                                            || (step.Whole? && step.op.Logout? && step.op.token == token)
                                            || (step.Spend? && m.calls[step.call].token == token)))
  {
  }

  /** Every stored token was issued by some step, whose time fixes its expiry. */
  lemma {:induction false} StoredWasIssued(members: set<(Id, Id)>, steps: seq<Step>, token: Token) returns (i: nat)
    requires RunAuth(members, steps).Some? && Stored(RunAuth(members, steps).value.s, token)
    ensures i < |steps| && Issues(members, steps, i, token)
    ensures RunAuth(members, steps).value.s.tokens[Sha256(token)].expiresAt == IssuedAt(steps[i]) + REFRESH_TOKEN_TTL_MS
  {
    var n := |steps| - 1;
    var m := RunAuth(members, steps[..n]).value;
    StepOnToken(m, steps[n], token);
    if Stored(m.s, token) {
      i := StoredWasIssued(members, steps[..n], token);
      PrefixFacts(members, steps, n, i, token);
    } else {
      i := n;
    }
  }

  /** And by that step only. */
  lemma IssuedIsStored(members: set<(Id, Id)>, steps: seq<Step>, i: nat, token: Token)
    requires RunAuth(members, steps).Some? && i < |steps| && Issues(members, steps, i, token)
    ensures Stored(RunAuth(members, steps).value.s, token)
    ensures RunAuth(members, steps).value.s.tokens[Sha256(token)].expiresAt == IssuedAt(steps[i]) + REFRESH_TOKEN_TTL_MS
  {
    PrefixRuns(members, steps, i);
    StepOnToken(RunAuth(members, steps[..i]).value, steps[i], token);
    TokensStay(members, steps, i + 1, token);
  }

  /** A stored token is revoked iff some step since it was issued ended it. */
  lemma {:induction false} RevokedIffEnded(members: set<(Id, Id)>, steps: seq<Step>, i: nat, token: Token)
    requires RunAuth(members, steps).Some? && i < |steps| && Issues(members, steps, i, token)
    ensures RevokedIn(RunAuth(members, steps).value.s, token) <==> !LiveSince(members, steps, i, token)
    decreases |steps|
  {
    var n := |steps| - 1;
    var m := RunAuth(members, steps[..n]).value;
    StepOnToken(m, steps[n], token);
    if i < n {
      PrefixFacts(members, steps, n, i, token);
      IssuedIsStored(members, steps[..n], i, token);
      RevokedIffEnded(members, steps[..n], i, token);
      LiveOneMore(members, steps, i, token);
    }
  }

  lemma LiveOneMore(members: set<(Id, Id)>, steps: seq<Step>, i: nat, token: Token)
    requires i < |steps| - 1
    ensures LiveSince(members, steps, i, token) <==>
            LiveSince(members, steps[..|steps| - 1], i, token) && !Ends(members, steps, |steps| - 1, token)
  {
    var n := |steps| - 1;
    forall m | i <= m < n
      ensures Issues(members, steps[..n], m, token) == Issues(members, steps, m, token)
      ensures Ends(members, steps[..n], m, token) == Ends(members, steps, m, token)
    {
      PrefixFacts(members, steps, n, m, token);
    }
    if LiveSince(members, steps, i, token) {
      assert forall m :: i < m < n ==> !Ends(members, steps, m, token);
    }
  }

  /** The token a refresh reads was issued, is not older than its time to live, and nothing has ended it. */
  ghost predicate GoodAt(members: set<(Id, Id)>, steps: seq<Step>, token: Token, at: int) {
    exists i :: 0 <= i < |steps| && LiveSince(members, steps, i, token) && at <= IssuedAt(steps[i]) + REFRESH_TOKEN_TTL_MS
  }

  /**
   * In every run, however refreshes overlap: a refresh is accepted iff the token it reads was issued by an earlier
   * step, at most the time to live ago, and no step in between logged it out or was the write of another refresh of it.
   */
  lemma AcceptedIff(members: set<(Id, Id)>, steps: seq<Step>, token: Token, at: int)
    requires RunAuth(members, steps).Some?
    ensures Accepts(members, steps + [Read(token, at)], |steps|, token) <==> GoodAt(members, steps, token, at)
  {
    var m := RunAuth(members, steps).value;
    assert (steps + [Read(token, at)])[..|steps|] == steps;
    if Stored(m.s, token) {
      var i := StoredWasIssued(members, steps, token);
      RevokedIffEnded(members, steps, i, token);
    }
    forall i | 0 <= i < |steps| && LiveSince(members, steps, i, token)
      ensures Stored(m.s, token) && !RevokedIn(m.s, token)
      ensures m.s.tokens[Sha256(token)].expiresAt == IssuedAt(steps[i]) + REFRESH_TOKEN_TTL_MS
    {
      IssuedIsStored(members, steps, i, token);
      RevokedIffEnded(members, steps, i, token);
    }
  }

  lemma AcceptedIffAt(members: set<(Id, Id)>, steps: seq<Step>, n: nat, token: Token)
    requires RunAuth(members, steps).Some? && n < |steps| && steps[n].Read? && steps[n].token == token
    ensures Accepts(members, steps, n, token) <==> GoodAt(members, steps[..n], token, steps[n].at)
  {
    PrefixRuns(members, steps, n);
    AcceptedIff(members, steps[..n], token, steps[n].at);
    assert steps[..n] + [steps[n]] == steps[..n + 1];
    assert (steps[..n] + [steps[n]])[..n] == steps[..n];
  }

  /** Once its time to live is over no refresh of a token is accepted, in any interleaving. */
  lemma ExpiredIsNeverAccepted(members: set<(Id, Id)>, steps: seq<Step>, i: nat, n: nat, token: Token)
    requires RunAuth(members, steps).Some? && i < n < |steps| && Issues(members, steps, i, token)
    requires steps[n].Read? && steps[n].at > IssuedAt(steps[i]) + REFRESH_TOKEN_TTL_MS
    ensures !Accepts(members, steps, n, token)
  {
    if steps[n].token == token {
      PrefixRuns(members, steps, n);
      PrefixFacts(members, steps, n, i, token);
      IssuedIsStored(members, steps[..n], i, token);
    }
  }

  // ---- For whom ----

  /** Members are those there were, and those added, and not removed since. */
  function MemberAfter(members: set<(Id, Id)>, steps: seq<Step>, user: Id, tenant: Id): bool {
    if steps == [] then (user, tenant) in members
    else
      var step := steps[|steps| - 1];
      if step.Whole? && step.op == AddMember(user, tenant) then true
      else if step.Whole? && step.op == RemoveMember(user, tenant) then false
      else MemberAfter(members, steps[..|steps| - 1], user, tenant)
  }

  lemma {:induction false} MembersFollow(members: set<(Id, Id)>, steps: seq<Step>, user: Id, tenant: Id)
    requires RunAuth(members, steps).Some?
    ensures (user, tenant) in RunAuth(members, steps).value.s.members <==> MemberAfter(members, steps, user, tenant)
  {
    if steps != [] {
      MembersFollow(members, steps[..|steps| - 1], user, tenant);
    }
  }

  /** A login is answered with its token iff the user is a member; so is a refresh, when it comes to its end. */
  lemma IssuedOnlyToMembers(members: set<(Id, Id)>, steps: seq<Step>, step: Step)
    requires RunAuth(members, steps).Some? && Enabled(RunAuth(members, steps).value, step)
    ensures var m := RunAuth(members, steps).value;
            && (step.Whole? && step.op.Login? ==>
                  Answer(m, step) == if MemberAfter(members, steps, step.op.userId, step.op.tenantId)
                                     then Issued(step.op.next) else Unauthorized)
            && (step.Finish? ==>
                  Answer(m, step) == if MemberAfter(members, steps, m.calls[step.call].userId, m.calls[step.call].tenantId)
                                     then Issued(step.next) else MembershipGone)
  {
    if step.Whole? && step.op.Login? {
      MembersFollow(members, steps, step.op.userId, step.op.tenantId);
    } else if step.Finish? {
      var c := RunAuth(members, steps).value.calls[step.call];
      MembersFollow(members, steps, c.userId, c.tenantId);
    }
  }

  predicate OwnedBy(s: AuthState, token: Token, user: Id, tenant: Id) {
    Stored(s, token) && s.tokens[Sha256(token)].userId == user && s.tokens[Sha256(token)].tenantId == tenant
  }

  /** Every refresh under way acts for the owner of the token it read. */
  lemma {:induction false} CallsActForOwners(members: set<(Id, Id)>, steps: seq<Step>, call: nat)
    requires RunAuth(members, steps).Some? && call in RunAuth(members, steps).value.calls
    ensures var m := RunAuth(members, steps).value;
            OwnedBy(m.s, m.calls[call].token, m.calls[call].userId, m.calls[call].tenantId)
  {
    var n := |steps| - 1;
    var m := RunAuth(members, steps[..n]).value;
    CallsAlwaysFit(members, steps[..n]);
    if call in m.calls {
      CallsActForOwners(members, steps[..n], call);
      RowAfterStep(m, steps[n], m.calls[call].token);
    }
  }

  /** A token issued by a login belongs to who logged in; one issued by a refresh to the owner of the token it read. */
  lemma OwnersDescend(members: set<(Id, Id)>, steps: seq<Step>, i: nat, token: Token)
    requires RunAuth(members, steps).Some? && i < |steps| && Issues(members, steps, i, token)
    ensures var s, m := RunAuth(members, steps).value.s, RunAuth(members, steps[..i]).value;
            && (steps[i].Whole? ==> OwnedBy(s, token, steps[i].op.userId, steps[i].op.tenantId))
            && (steps[i].Finish? ==>
                  var c := m.calls[steps[i].call];
                  OwnedBy(m.s, c.token, c.userId, c.tenantId) && OwnedBy(s, token, c.userId, c.tenantId))
  {
    PrefixRuns(members, steps, i);
    StepOnToken(RunAuth(members, steps[..i]).value, steps[i], token);
    if steps[i].Finish? {
      CallsActForOwners(members, steps[..i], steps[i].call);
    }
    TokensStay(members, steps, i + 1, token);
  }
}
