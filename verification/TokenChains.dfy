/** The chains of tokens that issuing and refreshing make. */
module TokenChains {
  import opened Common
  import opened Tokens

  predicate RevokedIn(s: AuthState, token: Token) {
    Sha256(token) in s.tokens && s.tokens[Sha256(token)].revokedAt.Some?
  }

  /** One issued token, and the position of the token it replaced (None for a login). */
  datatype Issue = Issue(token: Token, parent: Option<nat>)

  function Position(log: seq<Issue>, token: Token): (i: nat)
    ensures i <= |log|
    ensures i < |log| ==> log[i].token == token
    ensures i == |log| ==> forall j :: 0 <= j < |log| ==> log[j].token != token
  {
    if log == [] then 0
    else if log[|log| - 1].token == token then |log| - 1
    else
      var i := Position(log[..|log| - 1], token);
      if i == |log| - 1 then |log| else i
  }

  /** The log and the table agree, and each token has at most one successor, which it was revoked for. */
  predicate LogMatches(s: AuthState, log: seq<Issue>) {
    && AllStored(s, log) && AllLogged(s, log) && Distinct(log) && Lineage(log) && ParentsRevoked(s, log)
  }

  predicate AllStored(s: AuthState, log: seq<Issue>) {
    forall i :: 0 <= i < |log| ==> Sha256(log[i].token) in s.tokens
  }

  predicate AllLogged(s: AuthState, log: seq<Issue>) {
    forall h :: h in s.tokens ==> Position(log, h.token) < |log|
  }

  predicate Distinct(log: seq<Issue>) {
    forall i, j :: 0 <= i < j < |log| ==> log[i].token != log[j].token
  }

  predicate ParentsRevoked(s: AuthState, log: seq<Issue>) {
    forall i, p :: 0 <= i < |log| && 0 <= p < |log| && log[i].parent == Some(p) ==> RevokedIn(s, log[p].token)
  }

  predicate Lineage(log: seq<Issue>) {
    && (forall i :: 0 <= i < |log| && log[i].parent.Some? ==> log[i].parent.value < i)
    && (forall i, j :: 0 <= i < |log| && 0 <= j < |log| && log[i].parent.Some? && log[i].parent == log[j].parent ==> i == j)
  }

  function Root(log: seq<Issue>, i: nat): (r: nat)
    requires Lineage(log) && i < |log|
    ensures r <= i
  {
    if log[i].parent.None? then i else Root(log, log[i].parent.value)
  }

  /** `i` was replaced, directly or through further tokens, by `j`. */
  predicate Replaced(log: seq<Issue>, i: nat, j: nat)
    requires Lineage(log) && j < |log|
    decreases j
  {
    log[j].parent.Some? && (log[j].parent.value == i || Replaced(log, i, log[j].parent.value))
  }

  lemma LogAfterRevocation(s: AuthState, log: seq<Issue>, token: Token, at: int)
    requires LogMatches(s, log) && Sha256(token) in s.tokens
    ensures LogMatches(Revoked(s, token, at), log)
  {
  }

  lemma LogAfterIssue(s: AuthState, log: seq<Issue>, u: Id, t: Id, token: Token, at: int, parent: Option<nat>)
    requires LogMatches(s, log) && Sha256(token) !in s.tokens
    requires parent.Some? ==> parent.value < |log| && RevokedIn(s, log[parent.value].token)
    requires parent.Some? ==> forall i :: 0 <= i < |log| ==> log[i].parent != parent
    ensures LogMatches(WithToken(s, u, t, token, at), log + [Issue(token, parent)])
  {
    var s', e := WithToken(s, u, t, token, at), Issue(token, parent);
    TableAfterIssue(s, s', log, e);
    LineageAppend(log, e);
    ParentsStayRevoked(s, s', log, e);
  }

  lemma TableAfterIssue(s: AuthState, s': AuthState, log: seq<Issue>, e: Issue)
    requires AllStored(s, log) && AllLogged(s, log) && Distinct(log)
    requires Sha256(e.token) !in s.tokens && s'.tokens.Keys == s.tokens.Keys + {Sha256(e.token)}
    ensures AllStored(s', log + [e]) && AllLogged(s', log + [e]) && Distinct(log + [e])
  {
  }

  lemma ParentsStayRevoked(s: AuthState, s': AuthState, log: seq<Issue>, e: Issue)
    requires Lineage(log) && Lineage(log + [e]) && ParentsRevoked(s, log)
    requires forall token :: RevokedIn(s, token) ==> RevokedIn(s', token)
    requires e.parent.Some? ==> e.parent.value < |log| && RevokedIn(s, log[e.parent.value].token)
    ensures ParentsRevoked(s', log + [e])
  {
  }

  lemma LineageAppend(log: seq<Issue>, e: Issue)
    requires Lineage(log)
    requires e.parent.Some? ==> e.parent.value < |log| && forall i :: 0 <= i < |log| ==> log[i].parent != e.parent
    ensures Lineage(log + [e])
  {
  }

  lemma {:induction false} ReplacedIsEarlier(log: seq<Issue>, i: nat, j: nat)
    requires Lineage(log) && j < |log| && Replaced(log, i, j)
    ensures i < j
    decreases j
  {
    if log[j].parent.value != i {
      ReplacedIsEarlier(log, i, log[j].parent.value);
    }
  }

  /** A replaced token has exactly one direct successor, and everything it was replaced by goes through it. */
  lemma {:induction false} ReplacedThroughSuccessor(log: seq<Issue>, i: nat, c: nat, j: nat)
    requires Lineage(log) && c < |log| && j < |log|
    requires log[c].parent == Some(i) && Replaced(log, i, j)
    ensures c == j || Replaced(log, c, j)
    decreases j
  {
    var p := log[j].parent.value;
    if p != i {
      ReplacedThroughSuccessor(log, i, c, p);
    }
  }

  /** Two tokens of the same login: the later one replaced the earlier one. */
  lemma {:induction false} SameLoginIsOneChain(log: seq<Issue>, i: nat, j: nat)
    requires Lineage(log) && i < j < |log| && Root(log, i) == Root(log, j)
    ensures Replaced(log, i, j)
    decreases j
  {
    if log[j].parent.Some? {
      var p := log[j].parent.value;
      if i < p {
        SameLoginIsOneChain(log, i, p);
      } else if p < i {
        SameLoginIsOneChain(log, p, i);
        ReplacedThroughSuccessor(log, p, j, i);
        if j != i {
          ReplacedIsEarlier(log, j, i);
        }
      }
    }
  }

  lemma {:induction false} ReplacedIsRevoked(s: AuthState, log: seq<Issue>, i: nat, j: nat)
    requires LogMatches(s, log) && j < |log| && Replaced(log, i, j)
    ensures i < |log| && RevokedIn(s, log[i].token)
    decreases j
  {
    if log[j].parent.value != i {
      ReplacedIsRevoked(s, log, i, log[j].parent.value);
    }
  }
}
