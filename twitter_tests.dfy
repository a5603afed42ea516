/** The handler tests of the Twitter redirect, as scenarios over the model:
    a mock secret accessor, a mock upstream, and the exact responses expected. */
module TwitterTests {
  import opened Wrappers
  import Http
  import Secrets
  import opened Twitter

  /** The image URL the handler tests use, before its "_normal.jpg" suffix:
      https://pbs.twimg.com/profile_images/1180040914695327744/qTSU9ZXI,
      written in pieces so that the verifier can scan it. */
  const TestImageStem :=
    "https://" + "pbs.twimg" + ".com/" + "profile_" + "images/" + "118004091" + "4695327744" + "/qTSU9ZXI"

  /** Proof helper: concatenation regrouped, so a marker and its token read as one literal. */
  lemma Regroup(a: string, b: string, c: string, d: string)
    ensures a + b + c + d == a + (b + c) + d
  {
  }

  /** Proof helper: the size markers the variants put in the file name, as single literals. */
  lemma Markers()
    ensures "_" + "bigger" == "_bigger" && "_" + "mini" == "_mini"
  {
  }

  /** Proof helper: the stem has no "n", so the first "normal" in the test image is its suffix. */
  lemma TestImageStemHasNoN()
    ensures 'n' !in TestImageStem
  {
  }

  /** Proof helper: the placeholder's stem has no "n" either. */
  lemma DefaultImageStemHasNoN()
    ensures 'n' !in DefaultImageStem
  {
  }

  /** The test image at every size the tests ask for. */
  lemma TestImageVariants()
    ensures SizedProfileImageURL(TestImageStem + "_normal" + ".jpg", "") == TestImageStem + "_normal" + ".jpg"
    ensures SizedProfileImageURL(TestImageStem + "_normal" + ".jpg", "unknown") == TestImageStem + "_normal" + ".jpg"
    ensures SizedProfileImageURL(TestImageStem + "_normal" + ".jpg", "bigger") == TestImageStem + "_bigger" + ".jpg"
    ensures SizedProfileImageURL(TestImageStem + "_normal" + ".jpg", "mini") == TestImageStem + "_mini" + ".jpg"
    ensures SizedProfileImageURL(TestImageStem + "_normal" + ".jpg", "original") == TestImageStem + ".jpg"
  {
    TestImageStemHasNoN();
    Markers();
    TokenVariant(TestImageStem, ".jpg", "bigger");
    Regroup(TestImageStem, "_", "bigger", ".jpg");
    TokenVariant(TestImageStem, ".jpg", "mini");
    Regroup(TestImageStem, "_", "mini", ".jpg");
    OriginalVariant(TestImageStem, ".jpg");
  }

  /** The accessor used by the tests: every key is its own secret. */
  function EchoAccessor(key: string): Secrets.Reply {
    Secrets.Reply(key, None)
  }

  /** An accessor that fails for every key, naming the key. */
  function FailingAccessor(key: string): Secrets.Reply {
    Secrets.Reply("", Some(key))
  }

  method NewHandlerFuncErrorScenario() returns (r: Result<Handler>)
    ensures r == Err("could not get twitter token: " + TokenKey)
  {
    r := NewHandlerFunc(FailingAccessor);
  }

  /** A request without a username is refused. */
  method MissingUsernameScenario() returns (resp: Http.Response)
    ensures resp == Http.BadRequest(UsernameMessage)
  {
    var built := NewHandlerFunc(EchoAccessor);
    resp := built.value.Serve(map[], _ => RequestError);
  }

  /** An unknown user, modelled as an upstream whose answer decodes to an empty
      image field: the default image is served. */
  method UserNotFoundScenario() returns (resp: Http.Response)
    ensures resp == Http.Found(DefaultImageURL)
  {
    var built := NewHandlerFunc(EchoAccessor);
    var query := map["username" := ["NotFound"], "size" := [""]];
    assert Username(query) != "" by {
      assert |Username(query)| == |"NotFound"|;
    }
    resp := built.value.Serve(query, _ => Decoded(""));
  }

  /** A known user at size "bigger". */
  method UserFoundBiggerScenario() returns (resp: Http.Response)
    ensures resp == Http.Found(TestImageStem + "_bigger" + ".jpg")
  {
    var built := NewHandlerFunc(EchoAccessor);
    var query := map["username" := ["charlyx"], "size" := ["bigger"]];
    assert Username(query) != "" by {
      assert |Username(query)| == |"charlyx"|;
    }
    resp := built.value.Serve(query, _ => Decoded(TestImageStem + "_normal" + ".jpg"));
    TestImageStemHasNoN();
    Markers();
    TokenVariant(TestImageStem, ".jpg", "bigger");
    Regroup(TestImageStem, "_", "bigger", ".jpg");
  }

  /** The same request against the handler tests' mock as that mock is written:
      it answers with `profile_image_url_https`, a field the profile does not
      decode, so the image field comes out empty and the redirect goes to the
      "bigger" placeholder instead of the test image. */
  method MockFieldMismatchScenario() returns (resp: Http.Response)
    ensures resp == Http.Found(DefaultImageStem + "_bigger" + ".png")
  {
    var built := NewHandlerFunc(EchoAccessor);
    var query := map["username" := ["charlyx"], "size" := ["bigger"]];
    assert Username(query) != "" by {
      assert |Username(query)| == |"charlyx"|;
    }
    resp := built.value.Serve(query, _ => Decoded(""));
    DefaultImageStemHasNoN();
    Markers();
    TokenVariant(DefaultImageStem, ".png", "bigger");
    Regroup(DefaultImageStem, "_", "bigger", ".png");
  }
}
