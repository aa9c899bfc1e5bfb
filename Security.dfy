/** What the request filters have in common: a servlet request as the
    servlet API shows it, the `Authorization: Bearer` convention, the
    authentication token Spring Security keeps for a request, and the
    per-request state a filter acts on (the security context and the rest
    of the filter chain). */
module Security {
  import opened Common
  import opened Domain

  /** A servlet request: its header lines in arrival order, its servlet path
      and its HTTP method. */
  datatype Request = Request(headers: seq<(string, string)>, path: string, httpMethod: string)

  /** `getHeaders(name)`: every value sent under `name`, in order. */
  function HeaderValues(headers: seq<(string, string)>, name: string): (r: seq<string>)
    ensures |r| <= |headers|
    ensures forall v :: v in r <==> (name, v) in headers
  {
    if headers == [] then []
    else (if headers[0].0 == name then [headers[0].1] else []) + HeaderValues(headers[1..], name)
  }

  /** `getHeader(name)`: the first value sent under `name`, or null. */
  function Header(request: Request, name: string): (r: Option<string>)
    ensures r.None? <==> forall v :: (name, v) !in request.headers
    ensures r.Some? ==> (name, r.value) in request.headers
    ensures r.Some? ==> r.value == HeaderValues(request.headers, name)[0]
  {
    var values := HeaderValues(request.headers, name);
    if values == [] then None else assert values[0] in values; Some(values[0])
  }

  /** The text before a bearer token. */
  const BearerPrefix := "Bearer "

  /** A header that starts with `"Bearer "` carries the token after those
      seven characters; any other header, or none, carries no token. */
  function BearerToken(header: Option<string>): (r: Option<string>)
    ensures r.Some? <==> header.Some? && StartsWith(header.value, BearerPrefix)
    ensures r.Some? ==> header.value == BearerPrefix + r.value
  {
    if header.Some? && StartsWith(header.value, BearerPrefix) then Some(header.value[7..]) else None
  }

  /** Prefixing a token and extracting it again gives the token back. */
  lemma BearerRoundTrip(token: string)
    ensures BearerToken(Some(BearerPrefix + token)) == Some(token)
  {
    assert (BearerPrefix + token)[..|BearerPrefix|] == BearerPrefix;
    assert (BearerPrefix + token)[7..] == token;
  }

  /** The principal of an authentication: a stored user, or (on the
      WebSocket channel) the bare user id. */
  datatype Principal = StoredUser(user: User) | UserName(name: string)

  /** `UsernamePasswordAuthenticationToken(principal, null, authorities)`. */
  datatype Authentication = Authentication(principal: Principal, authorities: seq<string>)

  /** The token the HTTP filters build for a stored user: one authority,
      `"ROLE_"` followed by the role's name. */
  function UserAuthentication(user: User): Authentication
  {
    Authentication(StoredUser(user), [Authority(user.role)])
  }

  /** One run of a filter over a request: the authentication in the
      thread's `SecurityContext`, and how many times the filter has handed
      the request on to the rest of the chain. */
  class FilterRun {
    var authentication: Option<Authentication>
    var chainCalls: nat

    constructor (prior: Option<Authentication>)
      ensures authentication == prior && chainCalls == 0
    {
      authentication := prior;
      chainCalls := 0;
    }

    /** `SecurityContextHolder.getContext().setAuthentication(a)`. */
    method SetAuthentication(a: Authentication)
      modifies this
      ensures authentication == Some(a) && chainCalls == old(chainCalls)
    {
      authentication := Some(a);
    }

    /** `SecurityContextHolder.clearContext()`. */
    method ClearContext()
      modifies this
      ensures authentication == None && chainCalls == old(chainCalls)
    {
      authentication := None;
    }

    /** `filterChain.doFilter(request, response)`. */
    method Proceed()
      modifies this
      ensures authentication == old(authentication) && chainCalls == old(chainCalls) + 1
    {
      chainCalls := chainCalls + 1;
    }
  }
}
