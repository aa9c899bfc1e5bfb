/** `JwkProvider`: the user pool's signing keys, fetched from its JWKS
    document on first use and cached by key id afterwards. The HTTP fetch
    of one key (`UrlJwkProvider.get` and `Jwk.getPublicKey`) is the
    parameter `fetch`, applied to the document's URL and the key id; `None`
    stands for any exception it throws. */
module JwkProvider {
  import opened Common
  import opened Domain

  /** An RSA public key, as an uninterpreted value. */
  datatype PublicKey = PublicKey(encoded: seq<int>)

  /** The issuer of the pool's tokens. */
  function CognitoIssuer(region: string, userPoolId: string): string
  {
    "https://cognito-idp." + region + ".amazonaws.com/" + userPoolId
  }

  /** The URL of the pool's JWKS document. */
  function JwksUrl(region: string, userPoolId: string): (r: string)
    ensures StartsWith(r, "https://cognito-idp.") && EndsWith(r, "/.well-known/jwks.json")
  {
    "https://cognito-idp." + region + ".amazonaws.com/" + userPoolId + "/.well-known/jwks.json"
  }

  /** The JWKS document sits directly under the issuer. */
  lemma JwksUrlUnderIssuer(region: string, userPoolId: string)
    ensures JwksUrl(region, userPoolId) == CognitoIssuer(region, userPoolId) + "/.well-known/jwks.json"
  {
  }

  /** The answer of one `getPublicKey` and the cache after it. */
  datatype Lookup = Lookup(key: Result<PublicKey, Error>, cache: map<string, PublicKey>)

  /** `keyCache.computeIfAbsent(kid, ...)`: a cached key is returned as it
      is; otherwise the key is fetched and, only when the fetch succeeds,
      cached. */
  function LookupSpec(cache: map<string, PublicKey>, url: string, kid: string,
                      fetch: (string, string) -> Option<PublicKey>): (r: Lookup)
    ensures cache.Keys <= r.cache.Keys && r.cache.Keys <= cache.Keys + {kid}
    ensures forall k :: k in cache ==> k in r.cache && r.cache[k] == cache[k]
    ensures r.key.Ok? <==> kid in r.cache
    ensures r.key.Ok? ==> r.key.value == r.cache[kid]
    ensures r.key.Err? ==> r.key.error == Error(Runtime, "Failed to get public key") && r.cache == cache
    ensures kid in cache ==> r.key == Ok(cache[kid])
    ensures kid !in cache ==> (r.key.Ok? <==> fetch(url, kid).Some?)
    ensures kid !in cache && fetch(url, kid).Some? ==> r.key == Ok(fetch(url, kid).value)
  {
    if kid in cache then Lookup(Ok(cache[kid]), cache)
    else
      match fetch(url, kid)
      case None => Lookup(Err(Error(Runtime, "Failed to get public key")), cache)
      case Some(key) => Lookup(Ok(key), cache[kid := key])
  }

  class JwkProvider {
    var keyCache: map<string, PublicKey>
    const url: string

    constructor (region: string, userPoolId: string)
      ensures keyCache == map[] && url == JwksUrl(region, userPoolId)
    {
      keyCache := map[];
      url := JwksUrl(region, userPoolId);
    }

    /** `getPublicKey(kid)`. */
    method GetPublicKey(kid: string, fetch: (string, string) -> Option<PublicKey>)
      returns (r: Result<PublicKey, Error>)
      modifies this
      ensures r == LookupSpec(old(keyCache), url, kid, fetch).key
      ensures keyCache == LookupSpec(old(keyCache), url, kid, fetch).cache
    {
      if kid in keyCache {
        return Ok(keyCache[kid]);
      }
      var fetched := fetch(url, kid);
      if fetched.None? {
        return Err(Error(Runtime, "Failed to get public key"));
      }
      keyCache := keyCache[kid := fetched.value];
      r := Ok(fetched.value);
    }
  }

  /** Once a key id has been looked up successfully, asking again returns
      the same key, leaves the cache as it is, and does not depend on what
      a fetch would answer. */
  lemma SecondLookupIsCached(cache: map<string, PublicKey>, url: string, kid: string,
                             fetch: (string, string) -> Option<PublicKey>,
                             later: (string, string) -> Option<PublicKey>)
    requires LookupSpec(cache, url, kid, fetch).key.Ok?
    ensures var first := LookupSpec(cache, url, kid, fetch);
      LookupSpec(first.cache, url, kid, later) == first
  {
  }

  /** A lookup of one key id changes nothing a lookup of another key id
      would answer from the cache. */
  lemma DistinctKidsIndependent(cache: map<string, PublicKey>, url: string, kid: string, other: string,
                                fetch: (string, string) -> Option<PublicKey>)
    requires kid != other && other in cache
    ensures var after := LookupSpec(cache, url, kid, fetch).cache;
      other in after && LookupSpec(after, url, other, fetch).key == LookupSpec(cache, url, other, fetch).key
  {
  }
}
