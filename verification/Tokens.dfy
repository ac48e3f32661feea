/** Registration and refresh-token rotation, statement by statement. */
module Tokens {
  import opened Common
  import opened Slugs

  type Id = string
  type Token = string

  /** Token hashing is injective. */
  datatype TokenHash = Sha256(token: Token)

  datatype TokenRow = TokenRow(userId: Id, tenantId: Id, expiresAt: int, revokedAt: Option<int>)

  datatype AuthState = AuthState(tokens: map<TokenHash, TokenRow>, members: set<(Id, Id)>)

  /** `next` is the token that is generated should the operation issue one. */
  datatype AuthOp =
    | Login(userId: Id, tenantId: Id, next: Token, at: int)
    | Refresh(token: Token, next: Token, at: int)
    | Logout(token: Token, at: int)
    | AddMember(userId: Id, tenantId: Id)
    | RemoveMember(userId: Id, tenantId: Id)

  datatype Reply = Issued(token: Token) | Unauthorized | MembershipGone | Conflict | Done

  const REFRESH_TOKEN_TTL_MS := 30 * 24 * 60 * 60 * 1000

  predicate Usable(s: AuthState, token: Token, at: int) {
    var h := Sha256(token);
    h in s.tokens && s.tokens[h].revokedAt.None? && s.tokens[h].expiresAt >= at
  }

  function WithToken(s: AuthState, userId: Id, tenantId: Id, token: Token, at: int): AuthState {
    s.(tokens := s.tokens[Sha256(token) := TokenRow(userId, tenantId, at + REFRESH_TOKEN_TTL_MS, None)])
  }

  function Revoked(s: AuthState, token: Token, at: int): AuthState
    requires Sha256(token) in s.tokens
  {
    s.(tokens := s.tokens[Sha256(token) := s.tokens[Sha256(token)].(revokedAt := Some(at))])
  }

  /** A refresh once its token has been spent: tokens for the same user and tenant, if still a member. */
  function Finished(s: AuthState, userId: Id, tenantId: Id, next: Token, at: int): (AuthState, Reply) {
    if (userId, tenantId) in s.members then (WithToken(s, userId, tenantId, next, at), Issued(next)) else (s, MembershipGone)
  }

  /** Each operation on its own, with nothing in between. */
  function Perform(s: AuthState, op: AuthOp): (AuthState, Reply) {
    match op
    case Login(u, t, token, at) =>
      if (u, t) in s.members then (WithToken(s, u, t, token, at), Issued(token)) else (s, Unauthorized)
    case Refresh(token, next, at) =>
      if !Usable(s, token, at) then (s, Unauthorized)
      else
        var row := s.tokens[Sha256(token)];
        Finished(Revoked(s, token, at), row.userId, row.tenantId, next, at)
    case Logout(token, at) =>
      if Sha256(token) in s.tokens && s.tokens[Sha256(token)].revokedAt.None?
      then (Revoked(s, token, at), Done) else (s, Done)
    case AddMember(u, t) => (s.(members := s.members + {(u, t)}), Done)
    case RemoveMember(u, t) => (s.(members := s.members - {(u, t)}), Done)
  }

  datatype Role = OWNER | ADMIN | MEMBER
  datatype User = User(id: Id, email: string, passwordHash: string, name: string)
  datatype Tenant = Tenant(id: Id, name: string, slug: string)

  function SlugsOf(tenants: seq<Tenant>): seq<string> {
    seq(|tenants|, i requires 0 <= i < |tenants| => tenants[i].slug)
  }

  /** The slug a new tenant of this name gets: the first of the candidates that no tenant has. */
  predicate FirstFreeSlug(lower: string -> string, tenants: seq<Tenant>, name: string, slug: string) {
    var base, taken := Slugify(lower, name), SlugsOf(tenants);
    slug !in taken && exists i :: 0 <= i <= |tenants| && slug == Candidate(base, i)
                                  && forall j :: 0 <= j < i ==> Candidate(base, j) in taken
  }

  predicate DistinctEmails(users: seq<User>) {
    forall i, j :: 0 <= i < j < |users| ==> users[i].email != users[j].email
  }

  predicate DistinctSlugs(tenants: seq<Tenant>) {
    && (forall i, j :: 0 <= i < j < |tenants| ==> tenants[i].slug != tenants[j].slug)
    && (forall i :: 0 <= i < |tenants| ==> WellFormed(tenants[i].slug))
  }

  lemma SlugsStayDistinct(tenants: seq<Tenant>, t: Tenant)
    requires DistinctSlugs(tenants) && WellFormed(t.slug) && t.slug !in SlugsOf(tenants)
    ensures DistinctSlugs(tenants + [t])
  {
    forall i | 0 <= i < |tenants|
      ensures tenants[i].slug != t.slug
    {
      assert SlugsOf(tenants)[i] == tenants[i].slug;
    }
  }

  class AuthService {
    var users: seq<User>
    var tenants: seq<Tenant>
    var memberships: map<(Id, Id), Role>
    var tokens: map<TokenHash, TokenRow>

    function State(): AuthState
      reads this
    {
      AuthState(tokens, memberships.Keys)
    }

    ghost predicate Valid()
      reads this
    {
      DistinctEmails(users) && DistinctSlugs(tenants)
    }

    constructor ()
      ensures Valid() && users == [] && tenants == [] && State() == AuthState(map[], {})
    {
      users, tenants, memberships, tokens := [], [], map[], map[];
    }

    /** `lower` is the platform's lower-casing; ids and token are the generated ones. Conflict is its exception. */
    method Register(lower: string -> string, email: string, passwordHash: string, name: string, tenantName: string,
                    userId: Id, tenantId: Id, token: Token, now: int) returns (r: Reply)
      requires Valid()
      modifies this
      ensures Valid()
      ensures r == Conflict <==> exists i :: 0 <= i < |old(users)| && old(users)[i].email == email
      ensures r == Conflict ==> users == old(users) && tenants == old(tenants) && memberships == old(memberships)
                                && tokens == old(tokens)
      ensures r != Conflict ==> exists slug ::
                && FirstFreeSlug(lower, old(tenants), tenantName, slug)
                && tenants == old(tenants) + [Tenant(tenantId, tenantName, slug)]
      ensures r != Conflict ==> users == old(users) + [User(userId, email, passwordHash, name)]
      ensures r != Conflict ==> memberships == old(memberships)[(userId, tenantId) := OWNER]
      ensures r != Conflict ==> (State(), r) == Perform(Perform(old(State()), AddMember(userId, tenantId)).0,
                                                        Login(userId, tenantId, token, now))
    {
      if i :| 0 <= i < |users| && users[i].email == email {
        return Conflict;
      }
      var slug := FreeSlug(lower, tenantName);
      SlugsStayDistinct(tenants, Tenant(tenantId, tenantName, slug));
      tenants := tenants + [Tenant(tenantId, tenantName, slug)];
      users := users + [User(userId, email, passwordHash, name)];
      r := Join(userId, tenantId, token, now);
    }

    /** The owner's membership and first tokens. */
    method Join(userId: Id, tenantId: Id, token: Token, now: int) returns (r: Reply)
      modifies this`memberships, this`tokens
      ensures memberships == old(memberships)[(userId, tenantId) := OWNER] && r == Issued(token)
      ensures (State(), r) == Perform(Perform(old(State()), AddMember(userId, tenantId)).0,
                                      Login(userId, tenantId, token, now))
    {
      memberships := memberships[(userId, tenantId) := OWNER];
      assert memberships.Keys == old(memberships).Keys + {(userId, tenantId)};
      r := IssueTokens(userId, tenantId, token, now);
    }

    method FreeSlug(lower: string -> string, tenantName: string) returns (slug: string)
      ensures WellFormed(slug) && FirstFreeSlug(lower, tenants, tenantName, slug)
    {
      var baseSlug := Slugify(lower, tenantName);
      var lookups;
      slug, lookups := FindFreeSlug(SetOf(SlugsOf(tenants)), baseSlug);
      SlugIsWellFormed(lower, tenantName);
      CandidateIsWellFormed(baseSlug, lookups - 1);
      assert 0 <= lookups - 1 <= |tenants| && slug == Candidate(baseSlug, lookups - 1);
    }

    /** The lookup of `refresh` and its guard: the stored row, or None for a token it rejects. */
    method FindUsable(token: Token, now: int) returns (stored: Option<TokenRow>)
      ensures stored == if Usable(State(), token, now) then Some(tokens[Sha256(token)]) else None
    {
      var tokenHash := Sha256(token);
      if tokenHash !in tokens || tokens[tokenHash].revokedAt.Some? || tokens[tokenHash].expiresAt < now {
        return None;
      }
      stored := Some(tokens[tokenHash]);
    }

    /** The update of `refresh`. It does not look at the row again. */
    method Spend(token: Token, now: int)
      requires Sha256(token) in tokens
      modifies this`tokens
      ensures State() == Revoked(old(State()), token, now)
    {
      tokens := tokens[Sha256(token) := tokens[Sha256(token)].(revokedAt := Some(now))];
    }

    /** The rest of `refresh`. */
    method FinishRefresh(userId: Id, tenantId: Id, next: Token, now: int) returns (r: Reply)
      modifies this`tokens
      ensures (State(), r) == Finished(old(State()), userId, tenantId, next, now)
    {
      if (userId, tenantId) !in memberships {
        return MembershipGone;
      }
      r := IssueTokens(userId, tenantId, next, now);
    }

    /** A refresh that nothing else comes between. */
    method RefreshToken(token: Token, next: Token, now: int) returns (r: Reply)
      modifies this`tokens
      ensures (State(), r) == Perform(old(State()), Refresh(token, next, now))
    {
      var stored := FindUsable(token, now);
      if stored.None? {
        return Unauthorized;
      }
      Spend(token, now);
      r := FinishRefresh(stored.value.userId, stored.value.tenantId, next, now);
    }

    method LogOut(token: Token, now: int)
      modifies this`tokens
      ensures State() == Perform(old(State()), Logout(token, now)).0
    {
      var tokenHash := Sha256(token);
      if tokenHash in tokens && tokens[tokenHash].revokedAt.None? {
        tokens := tokens[tokenHash := tokens[tokenHash].(revokedAt := Some(now))];
      }
    }

    method IssueTokens(userId: Id, tenantId: Id, token: Token, now: int) returns (r: Reply)
      modifies this`tokens
      ensures State() == WithToken(old(State()), userId, tenantId, token, now) && r == Issued(token)
    {
      var expiresAt := now + REFRESH_TOKEN_TTL_MS;
      tokens := tokens[Sha256(token) := TokenRow(userId, tenantId, expiresAt, None)];
      r := Issued(token);
    }
  }
}
