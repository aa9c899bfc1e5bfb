/** `DevUserFilter`: in development, a request that does not say who sends
    it is handed on as if it came from the fixed test user, by wrapping it
    in a request whose `X-User-ID` header is overlaid. */
module DevUserFilter {
  import opened Common
  import opened Security

  const TestUserId := "11111111-1111-1111-1111-111111111111"
  const UserIdHeader := "X-User-ID"

  /** The request the filter hands on: the original one, or a
      `CustomHeaderRequestWrapper` around it with its custom headers. */
  datatype ServletRequest = Original(request: Request) | Wrapped(request: Request, customHeaders: map<string, string>)

  /** `doFilter`: the request passed to the chain (which is called once in
      either branch). */
  function DoFilter(request: Request): ServletRequest
  {
    if Header(request, UserIdHeader).None? then Wrapped(request, map[UserIdHeader := TestUserId])
    else Original(request)
  }

  /** `getHeader(name)`: a custom header wins over the original's. */
  function GetHeader(r: ServletRequest, name: string): Option<string>
  {
    match r
    case Original(request) => Header(request, name)
    case Wrapped(request, custom) => if name in custom then Some(custom[name]) else Header(request, name)
  }

  /** `getHeaders(name)`: a custom name gives its one value. */
  function GetHeaders(r: ServletRequest, name: string): seq<string>
  {
    if r.Wrapped? && name in r.customHeaders then [r.customHeaders[name]]
    else HeaderValues(r.request.headers, name)
  }

  /** The original request's `getHeaderNames`: every header name once, in
      the order the names first arrive. */
  function Names(headers: seq<(string, string)>): (r: seq<string>)
    ensures forall n :: n in r <==> n in NameSet(headers)
    ensures forall i, j :: 0 <= i < j < |r| ==> r[i] != r[j]
  {
    if headers == [] then []
    else
      var rest := Names(headers[..|headers| - 1]);
      var name := headers[|headers| - 1].0;
      assert NameSet(headers) == NameSet(headers[..|headers| - 1]) + {name} by {
        assert headers == headers[..|headers| - 1] + [headers[|headers| - 1]];
      }
      if name in rest then rest else rest + [name]
  }

  /** The names of a list of header lines. */
  function NameSet(headers: seq<(string, string)>): set<string>
  {
    set h | h in headers :: h.0
  }

  /** `CustomHeaderRequestWrapper.getHeaderNames`: the original names are
      copied into a hash map with their values, the custom headers are put
      over them, and the map's key set is the answer. */
  method GetHeaderNames(request: Request, customHeaders: map<string, string>) returns (names: set<string>)
    ensures names == NameSet(request.headers) + customHeaders.Keys
  {
    var headers: map<string, Option<string>> := map[];
    var originalHeaders := Names(request.headers);
    var i := 0;
    while i < |originalHeaders|
      invariant 0 <= i <= |originalHeaders|
      invariant headers.Keys == set k | k in originalHeaders[..i]
      invariant forall k :: k in headers ==> headers[k] == Header(request, k)
    {
      var name := originalHeaders[i];
      assert originalHeaders[..i + 1] == originalHeaders[..i] + [name];
      headers := headers[name := Header(request, name)];
      i := i + 1;
    }
    assert originalHeaders[..i] == originalHeaders;
    headers := headers + map k | k in customHeaders :: Some(customHeaders[k]);
    names := headers.Keys;
  }

  /** A request without an `X-User-ID` header goes on as the test user; one
      with it goes on unchanged. Either way the request handed on names a
      user, and every other header reads as in the original. */
  lemma HandedOnRequestNamesAUser(request: Request, name: string)
    ensures var r := DoFilter(request);
      && GetHeader(r, UserIdHeader).Some?
      && (Header(request, UserIdHeader).None? ==> GetHeader(r, UserIdHeader) == Some(TestUserId))
      && (Header(request, UserIdHeader).Some? ==> r == Original(request))
      && (name != UserIdHeader ==>
            GetHeader(r, name) == Header(request, name) && GetHeaders(r, name) == HeaderValues(request.headers, name))
  {
  }

  /** Every name the wrapped request lists answers `getHeader`, and
      `getHeader` is always the first of `getHeaders`. */
  lemma HeaderViewsAgree(request: Request, customHeaders: map<string, string>, name: string)
    ensures var r := Wrapped(request, customHeaders);
      && (name in NameSet(request.headers) + customHeaders.Keys ==> GetHeader(r, name).Some?)
      && (GetHeader(r, name).None? <==> GetHeaders(r, name) == [])
      && (GetHeader(r, name).Some? ==> GetHeader(r, name).value == GetHeaders(r, name)[0])
  {
    if name in NameSet(request.headers) && name !in customHeaders {
      var h :| h in request.headers && h.0 == name;
      assert (name, h.1) in request.headers;
    }
  }
}
