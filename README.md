# traefikbodytransform, modelled in Dafny

A model of the Traefik middleware plugin `traefikbodytransform`. For each request
the plugin reads a set of flags from a query parameter (`transformer` by
default): the first value of that parameter, lower-cased and split on `|`.
Three flags are recognised and applied in a fixed order:

- `body` reads the whole request body and replaces it with the JSON object
  `{"<jsonTransformFieldName>":"<raw body>"}`, updating `ContentLength`;
- `json` sets `Content-Type: application/json`;
- `bearer` sets `Authorization: Bearer <token>`, where the token is the first
  value of the query parameter `token` by default (the header form of
  section 2.1 of RFC 6750).

If the body cannot be read, the plugin logs `<name>: <error>` and answers 500
with the error text; the request is not forwarded and the other two rewrites
do not run. Otherwise the rewritten request goes to the next handler.

Files:

- `results.dfy` (`Results`): the `Ok`/`Err` result type.
- `text.dfy` (`Text`): `strings.ToLower` (ASCII letters), `strings.Split` with a
  one-character separator and its inverse `Join`, and the UTF-8 byte length of
  a string.
- `json.dfy` (`Json`): what `json.Marshal` writes for a one-entry
  `map[string]string`, with strings escaped as section 7 of RFC 8259 requires,
  and a reference decoder for JSON objects with string values (what
  `json.Unmarshal` does into a `map[string]string`). The two are tied by the
  round trip `Unmarshal(Marshal(k, v)) == Ok(map[k := v])`.
- `http.dfy` (`Http`): the request. `RequestData` is a snapshot of the fields the
  plugin touches: body stream, `ContentLength`, header map and decoded query.
  `Request` is the object that the handler rewrites in place.
- `transformer.dfy` (`Transformer`): `Config`, `CreateConfig`, `New`, the flag set
  (`OptionSet`, and the loop `ParseOptions` that fills it), the three rewrites, and the
  handler. `Serve` is the handler as a function of the request; the method
  `ServeHTTP` does the same thing in place on a `Request` and is proved equal to
  `Serve`. The lemmas about `Serve` state what the plugin promises.
- `transformer_test.dfy` (`TransformerTest`): the scenario of the repository's
  handler test and the mixed-case flag example.

The body read is not performed. The request's body is the value
`Readable(text)` or `Broken(error)`: what `io.ReadAll` on it would return.
After the `body` rewrite it is `Readable` of the JSON text.
`ContentLength` is the UTF-8 byte length of that text.

`New` copies the three configuration strings into the handler verbatim
(transformer.go:43-45); it does not replace an empty string with its default.
Defaults come only from `CreateConfig`.

## Model

| member | source | states |
|---|---|---|
| `Transformer.CreateConfig` | transformer.go:21-27 | the default configuration is `transformer`, `data`, `token` |
| `Transformer.New` | transformer.go:39-47 | never fails; the handler holds the name and the three configuration strings exactly as given |
| `Transformer.ParseOptions` | transformer.go:57-63 | the loop that inserts each piece into the option map yields exactly `OptionSet`: the bar-separated pieces of the lower-cased first value of the flag parameter, or no flags when that value is empty or absent |
| `Transformer.OptionsAreLowerCase` | transformer.go:59-61 | every flag is lower-case and free of the bar character, so matching against `body`, `json`, `bearer` ignores case |
| `Transformer.OptionSetCaseInsensitive` | transformer.go:59-60 | two flag values that lower-case alike give the same flag set |
| `Transformer.OptionSetOfPieces` | transformer.go:59-62 | when the lower-cased value is separator-free pieces joined by bars, the flag set is exactly the set of those pieces |
| `Transformer.RewritesCommute` | transformer.go:74-92 | the three rewrites touch disjoint fields and commute once the body is read, so the fixed order body, json, bearer shows only through the 500 short-circuit |
| `Transformer.Transformer.ServeFails` | transformer.go:65-72 | the outcome is a 500 exactly when `body` is set and the body read fails; it carries the read error, and the log line is `<name>: <error>` |
| `Transformer.Transformer.ServeFrame` | transformer.go:65-94 | a forwarded request keeps its query and every header other than `Content-Type` and `Authorization` |
| `Transformer.Transformer.ServeBody` | transformer.go:65-85 | with `body`, the forwarded body decodes to exactly `{jsonTransformFieldName: raw body}` and `ContentLength` is its byte length; without it, body and `ContentLength` are unchanged |
| `Transformer.Transformer.ServeJson` | transformer.go:86-88 | with `json`, `Content-Type` is the single value `application/json` whatever it held before and whether or not `body` is set; without it, that header entry is unchanged |
| `Transformer.Transformer.ServeBearer` | transformer.go:89-92 | with `bearer`, `Authorization` is the single value `Bearer ` + the first value of the token parameter (`""` when absent); without it, that header entry is unchanged |
| `Transformer.Transformer.ServePassThrough` | transformer.go:57-94 | with none of `body`, `json`, `bearer` set, the request is forwarded exactly as it came |
| `Transformer.Transformer.OnlyRecognisedFlagsMatter` | transformer.go:57-92 | requests that agree on the three recognised flags and the token are treated alike, so unrecognised and empty pieces have no effect |
| `Transformer.Transformer.ServeHTTP` | transformer.go:56-95 | the in-place handler computes `Serve` of the request it was given; when forwarded, the request object holds the forwarded fields; on a 500 the request is left untouched and nothing is forwarded |
| `Text.ToLower` | transformer.go:60 | lower-casing keeps the length and leaves no upper-case letter; each upper-case letter becomes its lower-case partner and every other character is kept |
| `Text.ToLowerIdempotent` | transformer.go:60 | lower-casing a lower-cased string changes nothing |
| `Text.Split` | transformer.go:60 | splitting gives at least one piece and no piece holds the separator |
| `Text.JoinSplit` | transformer.go:60 | joining the pieces with the separator restores the string |
| `Text.SplitUnique` | transformer.go:60 | `Split` is the only cut of a string into separator-free pieces that join back to it |
| `Text.SplitChars` | transformer.go:60 | every character of a piece occurs in the split string |
| `Text.Utf8Length` | transformer.go:84 | the byte length of a string is between one and four bytes per character, and one per character for ASCII text |
| `Text.Utf8LengthAppend` | transformer.go:84 | byte lengths add up over concatenation |
| `Json.EscapeAllPrintable` | transformer.go:74-76 | the encoder never emits a raw control character inside a string literal |
| `Json.EscapeAllPlain` | transformer.go:74-76 | text without quotation marks, reverse solidi or control characters is written unescaped |
| `Json.DecodeEscapeAll` | transformer.go:74-76 | escaped text followed by a closing quotation mark decodes back to the text and leaves what follows |
| `Json.DecodeQuote` | transformer.go:74-76 | a quoted string decodes to the string it quotes, whatever follows it |
| `Json.UnmarshalMarshal` | transformer.go:74-76 | the JSON text written for `{key: value}` decodes to exactly the one-entry map `{key: value}` |
| `Json.MarshalInjective` | transformer.go:74-76 | different entries give different JSON texts |
| `TransformerTest.MixedCaseFlags` | transformer.go:59-61 | the flag value `BODY`, `Json`, `BEARER` joined by bars selects exactly `body`, `json` and `bearer` |
| `TransformerTest.TestScenarioBody` | transformer_test.go:30-37 | for the test's request the forwarded body is `{"data":"RAWSTRING"}`, which decodes to `{"data": "RAWSTRING"}`, and `ContentLength` is 20 |
| `TransformerTest.TestScenarioHeaders` | transformer_test.go:30-39 | for the test's request the forwarded headers hold `Authorization: Bearer TOKENDATA` and `Content-Type: application/json` |
| `TransformerTest.TestServeHTTP` | transformer_test.go:14-39 | the test run through the in-place handler leaves the request with the expected body and headers |

## Left out

- The `net/http` machinery is not modelled: `http.ResponseWriter`, the response that `http.Error` writes, `context.Context`, and what the next handler does. Forwarding is the outcome `Forwarded(request)`. The 500 answer is `Error500(message, logLine)`.
- Stream reading is not modelled. `io.ReadAll` becomes the body's value, `Readable(text)` or `Broken(error)`. A partial read before an error is not modelled, because the handler discards it. The new body is plain text, not an `io.NopCloser` stream.
- Logging to `os.Stderr` is not modelled. The error outcome records the log line `<name>: <error>`. The panic when that write fails is not modelled, because it is a process-level I/O failure.
- The encode-failure branch (transformer.go:77-81) is not modelled. `json.Marshal` of a `map[string]string` cannot fail, so `Json.Marshal` is total.
- Json.Marshal: does not apply Go's HTML-safe escaping of `<`, `>`, `&`, U+2028 and U+2029. It writes `\b` and `\f` as `\u0008` and `\u000c`, which some Go versions write in short form. Neither choice changes the decoded value.
- Json.Marshal: does not model Go's handling of a body that is not valid UTF-8. Go writes each invalid byte as `\ufffd`, so decoding gives back U+FFFD and not the raw bytes. The round trip that `Transformer.Transformer.ServeBody` proves therefore holds for the Go program only when the body is valid UTF-8.
- The body is modelled as Unicode text, not as raw bytes. A body that is not valid UTF-8 is outside the model.
- Json.Unmarshal: a reference decoder for objects with string values. It rejects non-object input, as Go's `json.Unmarshal` into a `map[string]string` does. Unlike Go, it also rejects `null`, which Go accepts and turns into a nil map. It does not decode surrogate pairs written as two `\u` escapes. A lone surrogate escape such as `\uD800` gives `Err`, where Go decodes it to U+FFFD.
- Text.ToLower: lower-cases ASCII letters only; `strings.ToLower` maps all of Unicode. No non-ASCII character lower-cases to a letter of `body`, `json` or `bearer`, so flag matching is unaffected.
- Query decoding is not modelled: URL percent-decoding and `URL.Query()` parsing. The query is an already-decoded map from key to values, and `QueryGet` returns the first value or `""`.
- Header key canonicalisation in `Header.Set` is not modelled. The two keys written are already canonical.
- `ContentLength` is an unbounded integer; the `int64` conversion cannot overflow for any body that fits in memory.
- The `next` handler field of the Go `transformer` struct is left out of the `Transformer` datatype. Forwarding is represented by the outcome.
- Concurrency is not modelled: the handler keeps no state between requests.
