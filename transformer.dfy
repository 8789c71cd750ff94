/** The Traefik middleware: per request it reads a `|`-separated set of flags
    from a query parameter and, under the flags `body`, `json` and `bearer`,
    wraps the body in a one-key JSON object, sets `Content-Type` and sets a
    bearer `Authorization` header, in that order, before forwarding the request;
    a failed body read answers 500 instead. */
module Transformer {
  import opened Results
  import opened Text
  import opened Http
  import Json

  const ContentType := "Content-Type"
  const Authorization := "Authorization"
  const ApplicationJson := "application/json"

  /** The plugin configuration. */
  datatype Config = Config(
    transformerQueryParameterName: string,
    jsonTransformFieldName: string,
    tokenTransformQueryParameterFieldName: string)

  /** The default configuration. */
  function CreateConfig(): (c: Config)
    ensures c.transformerQueryParameterName == "transformer"
    ensures c.jsonTransformFieldName == "data"
    ensures c.tokenTransformQueryParameterFieldName == "token"
  {
    Config("transformer", "data", "token")
  }

  /** What became of a request: handed to the next handler as it then stood, or
      answered with status 500, the error text as the response body and a line
      written to the error log. */
  datatype Outcome = Forwarded(req: RequestData) | Error500(message: string, logLine: string)

  // ---------------------------------------------------------------------
  // Flags
  // ---------------------------------------------------------------------

  /** The flags of a request: the `|`-separated pieces of the lower-cased first
      value of the query parameter `key`; none when that value is empty. */
  function OptionSet(query: Values, key: string): set<string>
  {
    var param := QueryGet(query, key);
    if |param| == 0 then {} else set p | p in Split(ToLower(param), '|')
  }

  /** Fills the flag set piece by piece, as the handler's loop does. */
  method ParseOptions(query: Values, key: string) returns (options: set<string>)
    ensures options == OptionSet(query, key)
  {
    options := {};
    var param := QueryGet(query, key);
    if |param| > 0 {
      var pieces := Split(ToLower(param), '|');
      for i := 0 to |pieces|
        invariant options == set p | p in pieces[..i]
      {
        assert pieces[..i + 1] == pieces[..i] + [pieces[i]];
        options := options + {pieces[i]};
      }
      assert pieces[..|pieces|] == pieces;
    }
  }

  /** Flags are lower-case and never contain the separator, so matching them
      against `body`, `json` and `bearer` ignores case. */
  lemma OptionsAreLowerCase(query: Values, key: string, f: string)
    requires f in OptionSet(query, key)
    ensures '|' !in f
    ensures ToLower(f) == f
  {
    var lowered := ToLower(QueryGet(query, key));
    forall i | 0 <= i < |f| ensures !IsUpper(f[i]) {
      SplitChars(lowered, '|', f, f[i]);
    }
    ToLowerOfLower(f);
  }

  /** The flag set only depends on the flag value up to case. */
  lemma OptionSetCaseInsensitive(q: Values, q': Values, key: string)
    requires ToLower(QueryGet(q, key)) == ToLower(QueryGet(q', key))
    ensures OptionSet(q, key) == OptionSet(q', key)
  {
  }

  /** When the lower-cased flag value is the pieces `ps` joined by `|`, the flags
      are exactly those pieces. */
  lemma OptionSetOfPieces(query: Values, key: string, ps: seq<string>)
    requires |ps| >= 1 && forall p :: p in ps ==> '|' !in p
    requires QueryGet(query, key) != ""
    requires ToLower(QueryGet(query, key)) == Join(ps, '|')
    ensures OptionSet(query, key) == set p | p in ps
  {
    SplitUnique(ps, '|');
  }

  // ---------------------------------------------------------------------
  // The three rewrites
  // ---------------------------------------------------------------------

  /** The `body` rewrite after a successful read of `raw`: the body becomes the
      JSON object `{field: raw}` and `ContentLength` its byte length. */
  function WrapBody(r: RequestData, field: string, raw: string): RequestData
  {
    var encoded := Json.Marshal(field, raw);
    r.(body := Readable(encoded), contentLength := Utf8Length(encoded))
  }

  /** The `json` rewrite. */
  function SetContentType(r: RequestData): RequestData
  {
    r.(header := HeaderSet(r.header, ContentType, ApplicationJson))
  }

  /** The `bearer` rewrite, with the token taken from the query parameter
      `tokenKey` ("" when it is absent). */
  function SetBearer(r: RequestData, tokenKey: string): RequestData
  {
    r.(header := HeaderSet(r.header, Authorization, "Bearer " + QueryGet(r.query, tokenKey)))
  }

  /** The rewrites touch disjoint fields, so once the body has been read their
      order makes no difference: the fixed order body, json, bearer is only
      observable through the 500 answer that stops the other two. */
  lemma RewritesCommute(r: RequestData, field: string, raw: string, tokenKey: string)
    ensures SetContentType(WrapBody(r, field, raw)) == WrapBody(SetContentType(r), field, raw)
    ensures SetBearer(WrapBody(r, field, raw), tokenKey) == WrapBody(SetBearer(r, tokenKey), field, raw)
    ensures SetBearer(SetContentType(r), tokenKey) == SetContentType(SetBearer(r, tokenKey))
  {
    var h := r.header;
    var b := "Bearer " + QueryGet(r.query, tokenKey);
    assert h[ContentType := [ApplicationJson]][Authorization := [b]]
        == h[Authorization := [b]][ContentType := [ApplicationJson]];
  }

  // ---------------------------------------------------------------------
  // The middleware
  // ---------------------------------------------------------------------

  /** The handler built by `New`; the next handler of the chain is not part of
      the model: forwarding is the `Forwarded` outcome. */
  datatype Transformer = Transformer(
    name: string,
    transformerQueryParameterName: string,
    jsonTransformFieldName: string,
    tokenTransformQueryParameterFieldName: string)
  {
    /** Whether `flag` is among the request's flags. */
    predicate Active(r: RequestData, flag: string)
    {
      flag in OptionSet(r.query, transformerQueryParameterName)
    }

    /** What the handler does to a request: the rewrites the flags select, in
        the order body, json, bearer, or a 500 answer when the body cannot be
        read. */
    function Serve(r: RequestData): Outcome
    {
      if Active(r, "body") && r.body.Broken? then
        Error500(r.body.error, name + ": " + r.body.error)
      else
        var r1 := if Active(r, "body") then WrapBody(r, jsonTransformFieldName, r.body.content) else r;
        var r2 := if Active(r, "json") then SetContentType(r1) else r1;
        var r3 := if Active(r, "bearer") then SetBearer(r2, tokenTransformQueryParameterFieldName) else r2;
        Forwarded(r3)
    }

    /** The only failure is a body that cannot be read: the answer carries the
        read error, the log line is prefixed with the handler's name, and
        neither header rewrite happens because nothing is forwarded. */
    lemma ServeFails(r: RequestData)
      ensures Serve(r).Error500? <==> Active(r, "body") && r.body.Broken?
      ensures Serve(r).Error500? ==>
        Serve(r).message == r.body.error && Serve(r).logLine == name + ": " + r.body.error
    {
    }

    /** The query and every header other than `Content-Type` and
        `Authorization` reach the next handler unchanged. */
    lemma ServeFrame(r: RequestData)
      ensures Serve(r).Forwarded? ==> Serve(r).req.query == r.query
      ensures Serve(r).Forwarded? ==>
        Serve(r).req.header - {ContentType, Authorization} == r.header - {ContentType, Authorization}
    {
    }

    /** With `body`, the forwarded body decodes to exactly `{field: raw body}` and
        `ContentLength` is its byte length; without it, neither changes. */
    lemma ServeBody(r: RequestData)
      ensures Serve(r).Forwarded? && Active(r, "body") ==>
        && Serve(r).req.body.Readable?
        && Json.Unmarshal(Serve(r).req.body.content) == Ok(map[jsonTransformFieldName := r.body.content])
        && Serve(r).req.contentLength == Utf8Length(Serve(r).req.body.content)
      ensures Serve(r).Forwarded? && !Active(r, "body") ==>
        Serve(r).req.body == r.body && Serve(r).req.contentLength == r.contentLength
    {
      if Serve(r).Forwarded? && Active(r, "body") {
        Json.UnmarshalMarshal(jsonTransformFieldName, r.body.content);
      }
    }

    /** With `json`, `Content-Type` holds exactly `application/json`, whatever it
        held and whether or not `body` is set; without it, it is untouched. */
    lemma ServeJson(r: RequestData)
      ensures Serve(r).Forwarded? && Active(r, "json") ==>
        ContentType in Serve(r).req.header && Serve(r).req.header[ContentType] == [ApplicationJson]
      ensures Serve(r).Forwarded? && !Active(r, "json") ==>
        SameEntry(Serve(r).req.header, r.header, ContentType)
    {
    }

    /** With `bearer`, `Authorization` holds exactly `Bearer ` followed by the
        token parameter's first value ("" when absent); without it, it is
        untouched. */
    lemma ServeBearer(r: RequestData)
      ensures Serve(r).Forwarded? && Active(r, "bearer") ==>
        && Authorization in Serve(r).req.header
        && Serve(r).req.header[Authorization] ==
             ["Bearer " + QueryGet(r.query, tokenTransformQueryParameterFieldName)]
      ensures Serve(r).Forwarded? && !Active(r, "bearer") ==>
        SameEntry(Serve(r).req.header, r.header, Authorization)
    {
    }

    /** Without any of the three recognised flags the request is forwarded as
        it came, whatever other pieces the flag value holds. */
    lemma ServePassThrough(r: RequestData)
      requires !Active(r, "body") && !Active(r, "json") && !Active(r, "bearer")
      ensures Serve(r) == Forwarded(r)
    {
    }

    /** Only `body`, `json` and `bearer` matter: two requests that differ in
        their query but agree on those three flags and on the token get the
        same treatment, so unrecognised pieces such as `foo`, or the empty
        piece of `a||b`, change nothing. */
    lemma OnlyRecognisedFlagsMatter(r: RequestData, r': RequestData)
      requires r.body == r'.body && r.contentLength == r'.contentLength && r.header == r'.header
      requires QueryGet(r.query, tokenTransformQueryParameterFieldName)
            == QueryGet(r'.query, tokenTransformQueryParameterFieldName)
      requires Active(r, "body") == Active(r', "body")
      requires Active(r, "json") == Active(r', "json")
      requires Active(r, "bearer") == Active(r', "bearer")
      ensures Serve(r).Error500? == Serve(r').Error500?
      ensures Serve(r).Error500? ==> Serve(r) == Serve(r')
      ensures Serve(r).Forwarded? ==> Serve(r).req == Serve(r').req.(query := r.query)
    {
    }

    /** `ServeHTTP`: rewrites `req` in place and reports whether it was
        forwarded; on a 500 answer the request is left as it was. */
    method ServeHTTP(req: Request) returns (out: Outcome)
      modifies req
      ensures out == Serve(old(req.Data()))
      ensures out.Forwarded? ==> req.Data() == out.req
      ensures out.Error500? ==> req.Data() == old(req.Data())
    {
      var options := ParseOptions(req.query, transformerQueryParameterName);

      if "body" in options {
        match req.body
        case Broken(e) =>
          out := Error500(e, name + ": " + e);
          return;
        case Readable(raw) =>
          var jsonBody := Json.Marshal(jsonTransformFieldName, raw);
          req.body := Readable(jsonBody);
          req.contentLength := Utf8Length(jsonBody);
      }
      if "json" in options {
        req.header := HeaderSet(req.header, ContentType, ApplicationJson);
      }
      if "bearer" in options {
        var token := QueryGet(req.query, tokenTransformQueryParameterFieldName);
        req.header := HeaderSet(req.header, Authorization, "Bearer " + token);
      }
      out := Forwarded(req.Data());
    }
  }

  /** `New`: copies the three configuration strings and the name into the
      handler, verbatim, and never fails. */
  function New(config: Config, name: string): (r: Result<Transformer>)
    ensures r.Ok?
    ensures r.value.name == name
    ensures r.value.transformerQueryParameterName == config.transformerQueryParameterName
    ensures r.value.jsonTransformFieldName == config.jsonTransformFieldName
    ensures r.value.tokenTransformQueryParameterFieldName == config.tokenTransformQueryParameterFieldName
  {
    Ok(Transformer(
      name,
      config.transformerQueryParameterName,
      config.jsonTransformFieldName,
      config.tokenTransformQueryParameterFieldName))
  }

}
