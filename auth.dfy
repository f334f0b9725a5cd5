/**
 * The token cache of server/AuthProvider/index.ts. An `AuthProvider` holds
 * one bearer token, empty at construction, and refreshes it from the token
 * issuer whenever it is empty, cannot be decoded, or has expired.
 *
 * `jwt.decode` is a parameter of type `Decoder`: None when decoding fails
 * (`null`), otherwise the token's `exp` claim in seconds, None when the
 * payload carries none. The clock is the parameter `nowMs`, in milliseconds.
 */
module Auth {
  import opened Wrappers

  type Decoder = string -> Option<Option<int>>

  /** Why the issuer could not supply a token. */
  datatype IssueError = IssuerFailed

  /**
   * `hasTokenExpired(exp)`: `exp < Math.floor(nowMs / 1000)`. Dafny's `/`
   * with a positive divisor rounds down, as `Math.floor` does. A missing
   * claim compares as `undefined < n`, which is false.
   */
  predicate HasTokenExpired(exp: Option<int>, nowMs: int)
  {
    exp.Some? && exp.value < nowMs / 1000
  }

  /** `isValidToken()` on a given token: set, decodable, and not expired. */
  predicate IsValidToken(token: string, decode: Decoder, nowMs: int)
  {
    token != "" && decode(token).Some? && !HasTokenExpired(decode(token).value, nowMs)
  }

  /**
   * The token issuer (`getGoogleAuthToken`), which is not part of this model:
   * each call records the client id it was given and answers with an
   * arbitrary token, or fails (None).
   */
  class TokenIssuer {
    var requests: seq<string>
    var replies: seq<Option<string>>

    constructor ()
      ensures requests == [] && replies == []
    {
      requests, replies := [], [];
    }

    method Issue(clientId: string) returns (reply: Option<string>)
      modifies this
      ensures requests == old(requests) + [clientId]
      ensures replies == old(replies) + [reply]
    {
      reply :| true;
      requests := requests + [clientId];
      replies := replies + [reply];
    }
  }

  class AuthProvider {
    const clientId: string
    var token: string

    /** A new provider holds the empty token, so its first call always refreshes. */
    constructor (clientId: string)
      ensures this.clientId == clientId && token == ""
    {
      this.clientId := clientId;
      token := "";
    }

    /** `isValidToken()` on the cached token. */
    predicate IsValid(decode: Decoder, nowMs: int)
      reads this
    {
      IsValidToken(token, decode, nowMs)
    }

    /**
     * `getAuthHeader()`: keeps a valid token without calling the issuer;
     * otherwise calls the issuer exactly once with the construction-time
     * client id and caches its token. The header is "Bearer " followed by the
     * token cached after the call. An issuer failure propagates and leaves the
     * cache as it was.
     */
    method GetAuthHeader(decode: Decoder, nowMs: int, issuer: TokenIssuer) returns (header: Result<string, IssueError>)
      modifies this, issuer
      ensures old(IsValid(decode, nowMs)) ==>
                token == old(token) && header == Success("Bearer " + token)
                && issuer.requests == old(issuer.requests) && issuer.replies == old(issuer.replies)
      ensures !old(IsValid(decode, nowMs)) ==>
                issuer.requests == old(issuer.requests) + [clientId]
                && |issuer.replies| == |old(issuer.replies)| + 1
                && issuer.replies[..|old(issuer.replies)|] == old(issuer.replies)
                && match issuer.replies[|issuer.replies| - 1]
                   case Some(t) => token == t && header == Success("Bearer " + t)
                   case None => token == old(token) && header == Failure(IssuerFailed)
    {
      if !IsValid(decode, nowMs) {
        var reply := issuer.Issue(clientId);
        if reply.None? {
          return Failure(IssuerFailed);
        }
        token := reply.value;
      }
      header := Success("Bearer " + token);
    }
  }

  /** A token expiring in the current second is still valid; one from the second before is not. */
  lemma ExpiryBoundary(nowMs: int)
    ensures !HasTokenExpired(Some(nowMs / 1000), nowMs)
    ensures HasTokenExpired(Some(nowMs / 1000 - 1), nowMs)
    ensures !HasTokenExpired(None, nowMs)
  {
  }

  /** A token whose `exp` is second `exp` stays valid until the millisecond clock reaches `(exp + 1) * 1000`. */
  lemma ValidThroughExpirySecond(exp: int, nowMs: int)
    ensures !HasTokenExpired(Some(exp), nowMs) <==> nowMs < (exp + 1) * 1000
  {
  }

  /** Expiry is permanent: a token expired at `t1` is expired at every later `t2`. */
  lemma ExpiryIsPermanent(token: string, decode: Decoder, t1: int, t2: int)
    requires t1 <= t2 && !IsValidToken(token, decode, t1)
    ensures !IsValidToken(token, decode, t2)
  {
  }

  /**
   * Two calls on a new provider, at times `t1` and `t2`: the first always asks
   * the issuer; the second asks again exactly when the first token is not
   * valid at `t2` (expired or undecodable), and otherwise returns the same
   * header. Every request carries the provider's client id.
   */
  method TwoCalls(clientId: string, decode: Decoder, t1: int, t2: int)
    returns (first: Result<string, IssueError>, second: Result<string, IssueError>, issuer: TokenIssuer)
    ensures fresh(issuer)
    ensures 1 <= |issuer.requests| <= 2 && |issuer.replies| == |issuer.requests|
    ensures forall i :: 0 <= i < |issuer.requests| ==> issuer.requests[i] == clientId
    ensures first.Success? <==> issuer.replies[0].Some?
    ensures first.Success? ==> first.value == "Bearer " + issuer.replies[0].value
    ensures first.Success? && IsValidToken(issuer.replies[0].value, decode, t2)
            ==> second == first && |issuer.requests| == 1
    ensures first.Success? && !IsValidToken(issuer.replies[0].value, decode, t2)
            ==> |issuer.requests| == 2
                && (second.Success? <==> issuer.replies[1].Some?)
                && (second.Success? ==> second.value == "Bearer " + issuer.replies[1].value)
  {
    issuer := new TokenIssuer();
    var provider := new AuthProvider(clientId);
    first := provider.GetAuthHeader(decode, t1, issuer);
    second := provider.GetAuthHeader(decode, t2, issuer);
  }
}
