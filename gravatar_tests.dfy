/** The handler tests of the Gravatar redirect, as scenarios over the model,
    with the digest left abstract. */
module GravatarTests {
  import Http
  import opened Gravatar

  lemma MissingEmailScenario(md5Hex: string -> string)
    ensures Handle(map[], md5Hex) == Http.BadRequest(EmailMessage)
  {
  }

  /** The email the tests use is already trimmed and lower-case. */
  lemma MonEmailHash(md5Hex: string -> string)
    ensures Hash("mon@email", md5Hex) == md5Hex("mon@email")
  {
    PlainEmailHash("mon@email", md5Hex);
  }

  lemma DefaultSizeScenario(md5Hex: string -> string)
    ensures Handle(map["email" := ["mon@email"]], md5Hex)
         == Http.Found(GravatarURL + "/" + md5Hex("mon@email") + "?s=80")
  {
    var query := map["email" := ["mon@email"]];
    assert Http.QueryGet(query, "email") == "mon@email";
    assert ChosenSize(query) == DefaultSize;
    MonEmailHash(md5Hex);
  }

  lemma GivenSizeScenario(md5Hex: string -> string)
    ensures Handle(map["email" := ["mon@email"], "size" := ["200"]], md5Hex)
         == Http.Found(GravatarURL + "/" + md5Hex("mon@email") + "?s=200")
  {
    var query := map["email" := ["mon@email"], "size" := ["200"]];
    assert Http.QueryGet(query, "email") == "mon@email";
    assert ChosenSize(query) == "200";
    MonEmailHash(md5Hex);
  }
}
