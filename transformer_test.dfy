/** The scenario of the repository's handler test, and the mixed-case flag
    example, as facts about the model. */
module TransformerTest {
  import opened Results
  import opened Text
  import opened Http
  import Json
  import opened Transformer

  lemma JoinOfFlags()
    ensures Join(["body", "json", "bearer"], '|') == "body|json|bearer"
  {
    var ps := ["body", "json", "bearer"];
    assert ps[1..] == ["json", "bearer"] && ps[1..][1..] == ["bearer"];
    assert Join(["json", "bearer"], '|') == "json" + "|" + "bearer";
  }

  /** A flag value that lower-cases to `body|json|bearer` selects exactly the
      three rewrites. */
  lemma AllThreeFlags(query: Values, key: string)
    requires QueryGet(query, key) != ""
    requires ToLower(QueryGet(query, key)) == "body|json|bearer"
    ensures OptionSet(query, key) == {"body", "json", "bearer"}
  {
    JoinOfFlags();
    var ps := ["body", "json", "bearer"];
    OptionSetOfPieces(query, key, ps);
    assert (set p | p in ps) == {"body", "json", "bearer"};
  }

  lemma LowerOfMixedCase()
    ensures ToLower("BODY|Json|BEARER") == "body|json|bearer"
  {
    var s, lowered := "BODY|Json|BEARER", "body|json|bearer";
    forall i | 0 <= i < |s| ensures ToLower(s)[i] == lowered[i] {
    }
  }

  /** Flags are matched whatever their case: `BODY|Json|BEARER` selects the
      three rewrites. */
  lemma MixedCaseFlags(query: Values, key: string)
    requires QueryGet(query, key) == "BODY|Json|BEARER"
    ensures OptionSet(query, key) == {"body", "json", "bearer"}
  {
    LowerOfMixedCase();
    AllThreeFlags(query, key);
  }

  /** The configuration of the test: flags under `transform`. */
  function TestConfig(): Config
  {
    CreateConfig().(transformerQueryParameterName := "transform")
  }

  /** The request of the test: a POST of `RAWSTRING` to
      `?transform=body|json|bearer&token=TOKENDATA`. */
  function TestRequest(): RequestData
  {
    RequestData(
      Readable("RAWSTRING"), 9, map[],
      map["transform" := ["body|json|bearer"], "token" := ["TOKENDATA"]])
  }

  /** The flags of the test request. */
  lemma TestFlags()
    ensures OptionSet(TestRequest().query, "transform") == {"body", "json", "bearer"}
  {
    var q := TestRequest().query;
    assert QueryGet(q, "transform") == "body|json|bearer";
    ToLowerOfLower("body|json|bearer");
    AllThreeFlags(q, "transform");
  }

  /** The body the test request is rewritten to. */
  lemma TestBodyText()
    ensures Json.Marshal("data", "RAWSTRING") == "{\"data\":\"RAWSTRING\"}"
  {
    Json.EscapeAllPlain("data");
    Json.EscapeAllPlain("RAWSTRING");
  }

  /** Its length in bytes. */
  lemma TestBodyLength()
    ensures Utf8Length("{\"data\":\"RAWSTRING\"}") == 20
  {
    var text := "{\"data\":\"RAWSTRING\"}";
    assert forall i :: 0 <= i < |text| ==> text[i] as int < 0x80;
  }

  /** Facts about literals, kept apart from the scenario so that its proof
      stays small. */
  lemma TestBearerText()
    ensures "Bearer " + "TOKENDATA" == "Bearer TOKENDATA"
  {
  }

  lemma HeaderKeysDistinct()
    ensures ContentType != Authorization
  {
    assert ContentType[0] != Authorization[0];
  }

  /** The flags of the test, as handler `t` built from its configuration sees
      them on its request `r`. */
  lemma TestActive(t: Transformer, r: RequestData)
    requires New(TestConfig(), "transformer-plugin") == Ok(t)
    requires r == TestRequest()
    ensures t.Active(r, "body") && t.Active(r, "json") && t.Active(r, "bearer")
    ensures t.Serve(r) == Forwarded(SetBearer(SetContentType(WrapBody(r, "data", "RAWSTRING")), "token"))
  {
    TestFlags();
  }

  /** What the test asserts of the body: the forwarded body is
      `{"data":"RAWSTRING"}` and decodes to the map `{"data": "RAWSTRING"}`. */
  lemma TestScenarioBody(t: Transformer, r: RequestData)
    requires New(TestConfig(), "transformer-plugin") == Ok(t)
    requires r == TestRequest()
    ensures t.Serve(r).Forwarded?
    ensures t.Serve(r).req.body == Readable("{\"data\":\"RAWSTRING\"}")
    ensures Json.Unmarshal(t.Serve(r).req.body.content) == Ok(map["data" := "RAWSTRING"])
    ensures t.Serve(r).req.contentLength == 20
  {
    TestActive(t, r);
    TestBodyText();
    TestBodyLength();
    t.ServeBody(r);
  }

  /** What the test asserts of the headers: `Authorization: Bearer TOKENDATA`
      and `Content-Type: application/json`. */
  lemma TestScenarioHeaders(t: Transformer, r: RequestData)
    requires New(TestConfig(), "transformer-plugin") == Ok(t)
    requires r == TestRequest()
    ensures t.Serve(r).Forwarded?
    ensures Authorization in t.Serve(r).req.header
    ensures t.Serve(r).req.header[Authorization] == ["Bearer TOKENDATA"]
    ensures ContentType in t.Serve(r).req.header
    ensures t.Serve(r).req.header[ContentType] == [ApplicationJson]
  {
    TestActive(t, r);
    assert QueryGet(r.query, "token") == "TOKENDATA";
    TestBearerText();
    HeaderKeysDistinct();
  }

  /** The test itself, driven through the in-place handler on a request that
      holds the test's fields. */
  method TestServeHTTP(req: Request)
    requires req.Data() == TestRequest()
    modifies req
    ensures req.body == Readable("{\"data\":\"RAWSTRING\"}")
    ensures Json.Unmarshal(req.body.content) == Ok(map["data" := "RAWSTRING"])
    ensures Authorization in req.header && req.header[Authorization] == ["Bearer TOKENDATA"]
    ensures ContentType in req.header && req.header[ContentType] == [ApplicationJson]
  {
    var handler := New(TestConfig(), "transformer-plugin");
    ghost var r := req.Data();
    var out := handler.value.ServeHTTP(req);
    TestScenarioBody(handler.value, r);
    TestScenarioHeaders(handler.value, r);
  }

}
