/** The Gravatar redirect: validate the email, choose the size, and redirect
    to the avatar addressed by the hash of the normalised email. */
module Gravatar {
  import opened Strings
  import Http

  const GravatarURL := "https://www.gravatar.com/avatar"
  const EmailMessage := "You must specify email query parameter."
  const DefaultSize := "80"

  /** `getHash`: the digest of the trimmed, lower-cased email. `md5Hex` stands
      for `fmt.Sprintf("%x", md5.Sum(...))`, which is not modelled. */
  function Hash(email: string, md5Hex: string -> string): (r: string)
    ensures r == md5Hex(TrimSpace(Lower(email)))
  {
    LowerTrimSpace(email);
    md5Hex(Lower(TrimSpace(email)))
  }

  /** Emails that agree once lower-cased have the same hash. */
  lemma HashIgnoresCase(a: string, b: string, md5Hex: string -> string)
    requires Lower(a) == Lower(b)
    ensures Hash(a, md5Hex) == Hash(b, md5Hex)
  {
    LowerTrimSpace(a);
    LowerTrimSpace(b);
  }

  /** White space around an email does not change its hash. */
  lemma HashIgnoresSurroundingSpace(l: string, email: string, r: string, md5Hex: string -> string)
    requires AllSpace(l) && AllSpace(r)
    ensures Hash(l + email + r, md5Hex) == Hash(email, md5Hex)
  {
    TrimSpaceIgnoresSurroundingSpace(l, email, r);
  }

  /** The size parameter: `size` if given, else `s` if given, else "80". A given
      value is used verbatim, without range checks. */
  function ChosenSize(query: Http.Query): (r: string)
    ensures r != ""
    ensures Http.QueryGet(query, "size") != "" ==> r == Http.QueryGet(query, "size")
    ensures Http.QueryGet(query, "size") == "" && Http.QueryGet(query, "s") != "" ==> r == Http.QueryGet(query, "s")
    ensures Http.QueryGet(query, "size") == "" && Http.QueryGet(query, "s") == "" ==> r == DefaultSize
  {
    var size := Http.QueryGet(query, "size");
    if size != "" then size
    else
      var s := Http.QueryGet(query, "s");
      if s == "" then DefaultSize else s
  }

  /** The redirect target: the avatar base, then the hash, then the size query.
      Each part can be read back from its place, so nothing else is inserted. */
  function AvatarURL(hash: string, size: string): (u: string)
    ensures |u| == |GravatarURL| + 1 + |hash| + 3 + |size|
    ensures u[..|GravatarURL| + 1] == GravatarURL + "/"
    ensures u[|GravatarURL| + 1..|GravatarURL| + 1 + |hash|] == hash
    ensures u[|GravatarURL| + 1 + |hash|..] == "?s=" + size
  {
    var u := (GravatarURL + "/") + hash + ("?s=" + size);
    assert u == GravatarURL + "/" + hash + "?s=" + size;
    u
  }

  /** `HandlerFunc`: an empty email is refused with 400, anything else is
      redirected with 302 to the avatar URL of its hash at the chosen size. */
  function Handle(query: Http.Query, md5Hex: string -> string): (r: Http.Response)
    ensures Http.QueryGet(query, "email") == "" ==> r == Http.BadRequest(EmailMessage)
    ensures Http.QueryGet(query, "email") != "" ==>
      r == Http.Found(AvatarURL(Hash(Http.QueryGet(query, "email"), md5Hex), ChosenSize(query)))
    ensures r.Redirect? <==> Http.QueryGet(query, "email") != ""
  {
    var email := Http.QueryGet(query, "email");
    if email == "" then
      Http.BadRequest(EmailMessage)
    else
      Http.Found(AvatarURL(Hash(email, md5Hex), ChosenSize(query)))
  }

  /** Two requests whose emails differ only in letter case or surrounding white
      space, with the same size parameters, get the same answer. */
  lemma HandleIgnoresEmailCaseAndSpace(q1: Http.Query, q2: Http.Query, l: string, r: string, md5Hex: string -> string)
    requires AllSpace(l) && AllSpace(r)
    requires Lower(Http.QueryGet(q1, "email")) == Lower(l + Http.QueryGet(q2, "email") + r)
    requires Http.QueryGet(q2, "email") != ""
    requires Http.QueryGet(q1, "size") == Http.QueryGet(q2, "size")
    requires Http.QueryGet(q1, "s") == Http.QueryGet(q2, "s")
    ensures Handle(q1, md5Hex) == Handle(q2, md5Hex)
  {
    var e1, e2 := Http.QueryGet(q1, "email"), Http.QueryGet(q2, "email");
    assert |e1| == |l + e2 + r|;
    HashIgnoresCase(e1, l + e2 + r, md5Hex);
    HashIgnoresSurroundingSpace(l, e2, r, md5Hex);
  }

  /** An email that is already trimmed and lower-case is hashed as it is. */
  lemma PlainEmailHash(email: string, md5Hex: string -> string)
    requires IsLower(email) && email != [] && !IsSpace(email[0]) && !IsSpace(email[|email| - 1])
    ensures Hash(email, md5Hex) == md5Hex(email)
  {
    TrimSpaceOfTrimmed(email);
    LowerOfLowerCase(email);
  }
}
