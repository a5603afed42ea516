/** The Twitter avatar redirect: size variants of a profile image URL, the
    fallback policy of the profile lookup, and the request handler that ties
    them to a cache. */
module Twitter {
  import opened Wrappers
  import opened Strings
  import Http
  import Secrets
  import Lru

  /** The placeholder image, https://abs.twimg.com/sticky/default_profile_images/default_profile_normal.png,
      written as its stem and its "_normal.png" suffix. */
  const DefaultImageStem :=
    "https://" + "abs.twimg" + ".com/" + "sticky/" + "default_" + "profile_" + "images/" + "default_" + "profile"
  const DefaultImageURL := DefaultImageStem + "_normal" + ".png"
  const ShowURL := "https://api.twitter.com/1.1/users/show.json"
  const TokenKey := "TWITTER_BEARER_TOKEN"
  const UsernameMessage := "You must specify username query parameter."

  // ---------------------------------------------------------------------------
  // Size variants
  // ---------------------------------------------------------------------------

  const SizeTokens := {"bigger", "mini", "normal", "original"}

  /** `getNormalizedSize`: a recognised token is kept, anything else becomes
      "normal". The membership test is case-sensitive and comes before the
      lower-casing, so "BIGGER" is not recognised. */
  function NormalizedSize(size: string): (r: string)
    ensures r in SizeTokens
    ensures size in SizeTokens ==> r == size
    ensures size !in SizeTokens ==> r == "normal"
  {
    if size != "bigger" && size != "mini" && size != "normal" && size != "original" then
      "normal"
    else
      LowerOfLowerCase(size);
      Lower(size)
  }

  lemma NormalizedSizeIdempotent(size: string)
    ensures NormalizedSize(NormalizedSize(size)) == NormalizedSize(size)
  {
  }

  /** An upper-case spelling of a token is not recognised. */
  lemma UpperCaseSizeIsNormal()
    ensures NormalizedSize("BIGGER") == "normal"
    ensures NormalizedSize("") == "normal" && NormalizedSize("unknown") == "normal"
  {
  }

  /** `getSizedProfileImageURL`: "normal" keeps the URL; "original" drops the first
      "_normal"; "bigger" and "mini" put the token in place of the first "normal".
      A URL without the searched text is returned unchanged. */
  function SizedProfileImageURL(imageURL: string, size: string): (r: string)
    ensures NormalizedSize(size) == "normal" ==> r == imageURL
    ensures NormalizedSize(size) == "original" ==>
      match FirstIndexOf(imageURL, "_normal")
      case None => r == imageURL
      case Some(i) => r == imageURL[..i] + imageURL[i + 7..]
    ensures NormalizedSize(size) == "bigger" || NormalizedSize(size) == "mini" ==>
      match FirstIndexOf(imageURL, "normal")
      case None => r == imageURL
      case Some(i) => r == imageURL[..i] + NormalizedSize(size) + imageURL[i + 6..]
  {
    var size := NormalizedSize(size);
    if size == "normal" then imageURL
    else if size == "original" then
      DropMarker(imageURL);
      ReplaceFirst(imageURL, "_normal", "")
    else
      PutToken(imageURL, size);
      ReplaceFirst(imageURL, "normal", size)
  }

  /** Proof helper: replacing the first "_normal" by nothing cuts it out. */
  lemma DropMarker(imageURL: string)
    ensures match FirstIndexOf(imageURL, "_normal")
            case None => ReplaceFirst(imageURL, "_normal", "") == imageURL
            case Some(i) => ReplaceFirst(imageURL, "_normal", "") == imageURL[..i] + imageURL[i + 7..]
  {
    ReplaceFirstByIndex(imageURL, "_normal", "");
    match FirstIndexOf(imageURL, "_normal")
    case None =>
    case Some(i) => assert imageURL[..i] + "" == imageURL[..i];
  }

  /** Proof helper: replacing the first "normal" by a token puts the token in its place. */
  lemma PutToken(imageURL: string, token: string)
    ensures match FirstIndexOf(imageURL, "normal")
            case None => ReplaceFirst(imageURL, "normal", token) == imageURL
            case Some(i) => ReplaceFirst(imageURL, "normal", token) == imageURL[..i] + token + imageURL[i + 6..]
  {
    ReplaceFirstByIndex(imageURL, "normal", token);
  }

  /** Only the normalised size matters: an unrecognised token behaves as "normal". */
  lemma SizedURLDependsOnNormalizedSize(imageURL: string, size: string)
    ensures SizedProfileImageURL(imageURL, size) == SizedProfileImageURL(imageURL, NormalizedSize(size))
    ensures size !in SizeTokens ==> SizedProfileImageURL(imageURL, size) == imageURL
  {
  }

  /** In a URL of the shape `stem + "_normal" + ext` with no "n" in the stem, the
      first "normal" and the first "_normal" are the suffix marker. */
  lemma NormalMarkerIsFirst(stem: string, ext: string)
    requires 'n' !in stem
    ensures FirstIndexOf(stem + "_normal" + ext, "normal") == Some(|stem| + 1)
    ensures FirstIndexOf(stem + "_normal" + ext, "_normal") == Some(|stem|)
  {
    var image := stem + "_normal" + ext;
    var p := stem + "_";
    assert image == p + "normal" + ext;
    FirstIndexAfterFreePrefix(p, "normal", ext);
    FirstIndexWithLead(image, '_', "normal", |stem|);
    assert ['_'] + "normal" == "_normal";
  }

  /** The variants of a "_normal" image: the marker becomes "_bigger" or "_mini",
      or disappears for "original". */
  lemma TokenVariant(stem: string, ext: string, token: string)
    requires 'n' !in stem
    requires token == "bigger" || token == "mini"
    ensures SizedProfileImageURL(stem + "_normal" + ext, token) == stem + "_" + token + ext
  {
    NormalMarkerIsFirst(stem, ext);
    MarkedImageParts(stem, ext);
    assert NormalizedSize(token) == token;
  }

  lemma OriginalVariant(stem: string, ext: string)
    requires 'n' !in stem
    ensures SizedProfileImageURL(stem + "_normal" + ext, "original") == stem + ext
  {
    NormalMarkerIsFirst(stem, ext);
    MarkedImageParts(stem, ext);
    assert NormalizedSize("original") == "original";
  }

  /** Proof helper: the parts of `stem + "_normal" + ext` around its marker. */
  lemma MarkedImageParts(stem: string, ext: string)
    ensures var image := stem + "_normal" + ext;
            && image[..|stem|] == stem && image[..|stem| + 1] == stem + "_"
            && image[|stem| + 7..] == ext
  {
    var image := stem + "_normal" + ext;
    assert image == (stem + "_") + "normal" + ext;
  }

  // ---------------------------------------------------------------------------
  // Profile lookup
  // ---------------------------------------------------------------------------

  /** The one outbound request of a lookup: the show endpoint with the handle
      as `screen_name`, and the token as a bearer credential. */
  datatype Request = Request(url: string, authorization: string)

  function ShowRequest(username: string, token: string): (r: Request)
    ensures |r.url| == |ShowURL + "?screen_name="| + |username|
    ensures |r.authorization| == |"Bearer "| + |token|
    ensures var p := ShowURL + "?screen_name=";
            r.url[..|p|] == p && r.url[|p|..] == username
    ensures r.authorization[..|"Bearer "|] == "Bearer " && r.authorization[|"Bearer "|..] == token
  {
    Request(ShowURL + "?screen_name=" + username, "Bearer " + token)
  }

  /** Different handles or tokens give different requests. */
  lemma ShowRequestInjective(u1: string, t1: string, u2: string, t2: string)
    ensures ShowRequest(u1, t1) == ShowRequest(u2, t2) <==> u1 == u2 && t1 == t2
  {
    if ShowRequest(u1, t1) == ShowRequest(u2, t2) {
      var p := ShowURL + "?screen_name=";
      assert u1 == ShowRequest(u1, t1).url[|p|..];
      assert t1 == ShowRequest(u1, t1).authorization[|"Bearer "|..];
    }
  }

  /** How that request ended: it could not be built, the transport failed,
      the body did not decode, the body was JSON `null`, or it decoded with
      this image field. */
  datatype Outcome = RequestError | TransportError | DecodeError | DecodedNull | Decoded(imageURL: string)

  /** The fallback policy of `getUserProfileImageURL`: every failure, a `null`
      body and an empty image field give the default image; a decoded URL is
      used as is. */
  function ResolvedImageURL(o: Outcome): (r: string)
    ensures r != ""
    ensures o.Decoded? && o.imageURL != "" ==> r == o.imageURL
    ensures !o.Decoded? || o.imageURL == "" ==> r == DefaultImageURL
  {
    match o
    case RequestError => DefaultImageURL
    case TransportError => DefaultImageURL
    case DecodeError => DefaultImageURL
    case DecodedNull => DefaultImageURL
    case Decoded(url) => if url == "" then DefaultImageURL else url
  }

  /** `getUserProfileImageURL`'s decision as written: a body of JSON `null` decodes
      without error and leaves the profile pointer nil, and reading its image field
      then panics. `None` stands for that panic; every other outcome agrees with
      `ResolvedImageURL`. */
  function ResolvedAsWritten(o: Outcome): (r: Option<string>)
    ensures r.None? <==> o.DecodedNull?
    ensures r.Some? ==> r.value == ResolvedImageURL(o)
  {
    match o
    case RequestError => Some(DefaultImageURL)
    case TransportError => Some(DefaultImageURL)
    case DecodeError => Some(DefaultImageURL)
    case DecodedNull => None
    case Decoded(url) => if url == "" then Some(DefaultImageURL) else Some(url)
  }

  /** A `null` body: the code as written has no answer, the fallback policy
      used by the handler serves the default image. */
  lemma NullBodyPanics()
    ensures ResolvedAsWritten(DecodedNull).None?
    ensures ResolvedImageURL(DecodedNull) == DefaultImageURL
    ensures forall o: Outcome :: !o.DecodedNull? ==> ResolvedAsWritten(o) == Some(ResolvedImageURL(o))
  {
  }

  /** `getUserProfileImageURL(username, token)`, with the network given as the
      function `upstream` from the request sent to its outcome. */
  function UserProfileImageURL(username: string, token: string, upstream: Request -> Outcome): (r: string)
    ensures r != ""
    ensures r == DefaultImageURL || upstream(ShowRequest(username, token)) == Decoded(r)
  {
    ResolvedImageURL(upstream(ShowRequest(username, token)))
  }

  // ---------------------------------------------------------------------------
  // The request handler
  // ---------------------------------------------------------------------------

  /** The cache key and upstream handle: the lower-cased `username` parameter. */
  function Username(query: Http.Query): (r: string)
    ensures IsLower(r) && |r| == |Http.QueryGet(query, "username")|
    ensures r == "" <==> Http.QueryGet(query, "username") == ""
  {
    Lower(Http.QueryGet(query, "username"))
  }

  /** A lookup that the handler accepts: the key is cached with a non-empty URL. */
  predicate CacheHit(entries: map<string, string>, key: string) {
    key in entries && entries[key] != ""
  }

  /** The closure returned by `handlerFunc(token, cache)`: the token and the
      shared cache, which may be null. `requests` records every lookup the
      handler starts, including one whose request cannot be built. */
  class Handler {
    const token: string
    const cache: Lru.Cache?
    ghost var requests: seq<Request>

    constructor (token: string, cache: Lru.Cache?)
      ensures this.token == token && this.cache == cache && requests == []
    {
      this.token := token;
      this.cache := cache;
      requests := [];
    }

    /** Answer one request. An empty username is refused with 400 before anything
        else happens. Otherwise a cached non-empty URL is used; failing that the
        profile is looked up once and the answer is cached under the lower-cased
        username. The response is then a 302 to the sized variant of that URL. */
    method Serve(query: Http.Query, upstream: Request -> Outcome) returns (resp: Http.Response)
      modifies this, cache
      ensures Username(query) == "" ==>
        && resp == Http.BadRequest(UsernameMessage)
        && requests == old(requests)
        && (cache != null ==> cache.entries == old(cache.entries) && cache.ops == old(cache.ops))
      ensures Username(query) != "" ==>
        var user := Username(query);
        var hit := cache != null && CacheHit(old(cache.entries), user);
        var url := if hit then old(cache.entries)[user] else UserProfileImageURL(user, token, upstream);
        && resp == Http.Found(SizedProfileImageURL(url, Http.QueryGet(query, "size")))
        && requests == old(requests) + (if hit then [] else [ShowRequest(user, token)])
        && (cache != null ==>
              && cache.entries == (if hit then old(cache.entries) else old(cache.entries)[user := url])
              && cache.ops == old(cache.ops) + [Lru.Lookup(user)] + (if hit then [] else [Lru.Store(user, url)]))
    {
      var username := Lower(Http.QueryGet(query, "username"));
      if username == "" {
        resp := Http.BadRequest(UsernameMessage);
        return;
      }

      var size := NormalizedSize(Http.QueryGet(query, "size"));

      var profileImageURL := "";
      if cache != null {
        var cached, ok := cache.Get(username);
        if ok {
          profileImageURL := cached;
        }
      }

      if profileImageURL == "" {
        profileImageURL := UserProfileImageURL(username, token, upstream);
        requests := requests + [ShowRequest(username, token)];
        if cache != null {
          cache.Add(username, profileImageURL);
        }
      }

      SizedURLDependsOnNormalizedSize(profileImageURL, Http.QueryGet(query, "size"));
      resp := Http.Found(SizedProfileImageURL(profileImageURL, size));
    }
  }

  /** The token half of `NewHandlerFunc`: a failing secret accessor is reported
      with the prefix "could not get twitter token: ". */
  function TokenResult(reply: Secrets.Reply): (r: Result<string>)
    ensures reply.err.Some? <==> r.Err?
    ensures r.Err? ==> r.error == "could not get twitter token: " + reply.err.value
    ensures r.Ok? ==> r.value == reply.value
  {
    match reply.err
    case Some(e) => Err("could not get twitter token: " + e)
    case None => Ok(reply.value)
  }

  /** `NewHandlerFunc(secret)`: ask the accessor for the bearer token; on failure
      no handler is built, otherwise the handler holds the token and a new, empty
      cache. */
  method NewHandlerFunc(secretGet: string -> Secrets.Reply) returns (r: Result<Handler>)
    ensures secretGet(TokenKey).err.Some? ==> r == Err("could not get twitter token: " + secretGet(TokenKey).err.value)
    ensures secretGet(TokenKey).err.None? ==>
      && r.Ok? && fresh(r.value)
      && r.value.token == secretGet(TokenKey).value
      && r.value.cache != null && fresh(r.value.cache)
      && r.value.cache.entries == map[] && r.value.cache.ops == []
      && r.value.requests == []
  {
    var cache := new Lru.Cache();
    var token := TokenResult(secretGet(TokenKey));
    if token.Err? {
      return Err(token.error);
    }
    var h := new Handler(token.value, cache);
    return Ok(h);
  }

  /** With the environment accessor and no token set, construction fails with
      the accessor's own "provided key TWITTER_BEARER_TOKEN is unset" behind the prefix. */
  lemma MissingEnvironmentToken(env: Secrets.Environment)
    requires TokenKey !in env
    ensures TokenResult(Secrets.EnvGet(env, TokenKey))
         == Err("could not get twitter token: " + Secrets.UnsetMessage(TokenKey))
  {
  }

  // ---------------------------------------------------------------------------
  // Two requests in a row
  // ---------------------------------------------------------------------------

  /** Two requests for the same handle, in any mix of letter case, reach the
      profile endpoint at most once: the second is served from the cache and
      redirects to a variant of the same URL. */
  method ServeTwice(h: Handler, q1: Http.Query, q2: Http.Query, upstream: Request -> Outcome)
    returns (r1: Http.Response, r2: Http.Response)
    requires h.cache != null
    requires Username(q1) != "" && Username(q1) == Username(q2)
    modifies h, h.cache
    ensures |h.requests| <= |old(h.requests)| + 1
    ensures Username(q1) in h.cache.entries
    ensures r1 == Http.Found(SizedProfileImageURL(h.cache.entries[Username(q1)], Http.QueryGet(q1, "size")))
    ensures r2 == Http.Found(SizedProfileImageURL(h.cache.entries[Username(q1)], Http.QueryGet(q2, "size")))
  {
    r1 := h.Serve(q1, upstream);
    ghost var afterFirst := h.requests;
    r2 := h.Serve(q2, upstream);
    assert h.requests == afterFirst;
  }
}
