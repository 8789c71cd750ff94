/** The JSON text that Go's `json.Marshal` produces for a `map[string]string`
    with one entry, following section 7 of RFC 8259 for strings, and a
    reference decoder for JSON objects whose values are strings (what
    `json.Unmarshal` does into a `map[string]string`), so that the round trip
    can be stated. */
module Json {
  import opened Results

  const Hex := "0123456789abcdef"

  /** The lower-case hexadecimal digit for `n`, as `encoding/json` writes it. */
  function HexDigit(n: nat): (c: char)
    requires n < 16
  {
    Hex[n]
  }

  /** The value of a hexadecimal digit of either case, or -1. */
  function HexValue(c: char): (v: int)
    ensures -1 <= v < 16
  {
    if '0' <= c <= '9' then c as int - '0' as int
    else if 'a' <= c <= 'f' then c as int - 'a' as int + 10
    else if 'A' <= c <= 'F' then c as int - 'A' as int + 10
    else -1
  }

  lemma HexValueOfDigit(n: nat)
    requires n < 16
    ensures HexValue(HexDigit(n)) == n
  {
  }

  /** Whitespace that may separate JSON tokens (section 2 of RFC 8259). */
  predicate IsWs(c: char)
  {
    c == ' ' || c == '\t' || c == '\n' || c == '\r'
  }

  /** The characters that a JSON string may not hold unescaped. */
  predicate IsControl(c: char)
  {
    c < ' '
  }

  // ---------------------------------------------------------------------
  // Encoding
  // ---------------------------------------------------------------------

  /** How one character appears inside a quoted string: quotation mark and
      reverse solidus are escaped, newline, carriage return and tab use their
      two-character escapes, other control characters become `\u00xx`. */
  function EscapeChar(c: char): (r: string)
    ensures |r| >= 1
  {
    if c == '"' then "\\\""
    else if c == '\\' then "\\\\"
    else if c == '\n' then "\\n"
    else if c == '\r' then "\\r"
    else if c == '\t' then "\\t"
    else if IsControl(c) then "\\u00" + [HexDigit(c as int / 16), HexDigit(c as int % 16)]
    else [c]
  }

  function EscapeAll(s: string): string
    decreases |s|
  {
    if |s| == 0 then "" else EscapeChar(s[0]) + EscapeAll(s[1..])
  }

  /** A JSON string literal holding `s`. */
  function Quote(s: string): string
  {
    "\"" + EscapeAll(s) + "\""
  }

  /** `json.Marshal(map[string]string{key: value})`: Go writes the object
      without any whitespace. */
  function Marshal(key: string, value: string): string
  {
    "{" + Quote(key) + ":" + Quote(value) + "}"
  }

  // ---------------------------------------------------------------------
  // Decoding
  // ---------------------------------------------------------------------

  /** Drops the leading whitespace of `t`. */
  function SkipWs(t: string): (r: string)
    ensures |r| <= |t| && r == t[|t| - |r|..]
    ensures |r| > 0 ==> !IsWs(r[0])
    decreases |t|
  {
    if |t| > 0 && IsWs(t[0]) then SkipWs(t[1..]) else t
  }

  /** The four hexadecimal digits at the start of `t`, or -1. */
  function Hex4(t: string): (v: int)
    requires |t| >= 4
    ensures -1 <= v < 0x10000
  {
    var a, b, c, d := HexValue(t[0]), HexValue(t[1]), HexValue(t[2]), HexValue(t[3]);
    if a < 0 || b < 0 || c < 0 || d < 0 then -1 else ((a * 16 + b) * 16 + c) * 16 + d
  }

  /** Decodes the escape sequence that follows a reverse solidus. */
  function DecodeEscape(t: string): (r: Result<(char, string)>)
    ensures r.Ok? ==> |r.value.1| < |t|
  {
    if |t| == 0 then Err("unexpected end of JSON input")
    else if t[0] == '"' then Ok(('"', t[1..]))
    else if t[0] == '\\' then Ok(('\\', t[1..]))
    else if t[0] == '/' then Ok(('/', t[1..]))
    else if t[0] == 'b' then Ok(('\U{8}', t[1..]))
    else if t[0] == 'f' then Ok(('\U{C}', t[1..]))
    else if t[0] == 'n' then Ok(('\n', t[1..]))
    else if t[0] == 'r' then Ok(('\r', t[1..]))
    else if t[0] == 't' then Ok(('\t', t[1..]))
    else if t[0] == 'u' && |t| >= 5 then
      var v := Hex4(t[1..5]);
      if v < 0 then Err("invalid character in \\u hexadecimal character escape")
      else if 0xD800 <= v < 0xE000 then Err("surrogate halves are not modelled")
      else Ok((v as char, t[5..]))
    else Err("invalid character in string escape code")
  }

  /** Decodes the characters of a string literal after its opening quotation
      mark, up to and including the closing one; yields the decoded text and
      what follows the literal. */
  function DecodeChars(t: string): (r: Result<(string, string)>)
    ensures r.Ok? ==> |r.value.1| < |t|
    decreases |t|
  {
    if |t| == 0 then Err("unexpected end of JSON input")
    else if t[0] == '"' then Ok(("", t[1..]))
    else if IsControl(t[0]) then Err("invalid character in string literal")
    else
      var step :=
        if t[0] == '\\' then DecodeEscape(t[1..]) else Ok((t[0], t[1..]));
      match step
      case Err(e) => Err(e)
      case Ok((c, rest)) =>
        match DecodeChars(rest)
        case Err(e) => Err(e)
        case Ok((s, after)) => Ok(([c] + s, after))
  }

  /** Decodes a string literal at the start of `t`. */
  function DecodeString(t: string): (r: Result<(string, string)>)
    ensures r.Ok? ==> |r.value.1| < |t|
  {
    if |t| > 0 && t[0] == '"' then DecodeChars(t[1..]) else Err("expected string literal")
  }

  /** Decodes `"key": "value"` members, separated by commas, up to the closing
      brace of the object and the end of the text; a later member with the same
      key replaces an earlier one. */
  function DecodeMembers(t: string, acc: map<string, string>): (r: Result<map<string, string>>)
    decreases |t|
  {
    match DecodeString(SkipWs(t))
    case Err(e) => Err(e)
    case Ok((k, t1)) =>
      var t2 := SkipWs(t1);
      if |t2| == 0 || t2[0] != ':' then Err("expected colon after object key")
      else
        match DecodeString(SkipWs(t2[1..]))
        case Err(e) => Err(e)
        case Ok((v, t3)) =>
          var t4 := SkipWs(t3);
          if |t4| > 0 && t4[0] == ',' then DecodeMembers(t4[1..], acc[k := v])
          else if |t4| > 0 && t4[0] == '}' then
            if SkipWs(t4[1..]) == "" then Ok(acc[k := v])
            else Err("invalid character after top-level value")
          else Err("expected comma or closing brace")
  }

  /** `json.Unmarshal` of a JSON object into a `map[string]string`. */
  function Unmarshal(t: string): (r: Result<map<string, string>>)
  {
    var t0 := SkipWs(t);
    if |t0| == 0 || t0[0] != '{' then Err("expected JSON object")
    else
      var t1 := SkipWs(t0[1..]);
      if |t1| > 0 && t1[0] == '}' then
        if SkipWs(t1[1..]) == "" then Ok(map[]) else Err("invalid character after top-level value")
      else DecodeMembers(t1, map[])
  }

  // ---------------------------------------------------------------------
  // Round trip
  // ---------------------------------------------------------------------

  /** Decoding an escaped character yields the character back, whatever follows. */
  lemma DecodeEscapeChar(c: char, rest: string)
    ensures DecodeChars(EscapeChar(c) + rest) ==
      match DecodeChars(rest)
      case Err(e) => Err(e)
      case Ok((s, after)) => Ok(([c] + s, after))
  {
    var t := EscapeChar(c) + rest;
    if IsControl(c) && c != '\n' && c != '\r' && c != '\t' {
      var hi, lo := c as int / 16, c as int % 16;
      HexValueOfDigit(hi);
      HexValueOfDigit(lo);
      var u := t[1..];
      assert u[0] == 'u' && u[1] == '0' && u[2] == '0';
      assert u[3] == HexDigit(hi) && u[4] == HexDigit(lo);
      assert Hex4(u[1..5]) == c as int;
      assert u[5..] == rest;
    } else if c == '"' || c == '\\' || c == '\n' || c == '\r' || c == '\t' {
      assert t[2..] == rest;
    } else {
      assert t[1..] == rest;
    }
  }

  /** The escaped text of `s` followed by a closing quotation mark decodes to `s`,
      leaving whatever follows the literal. */
  lemma {:induction false} DecodeEscapeAll(s: string, rest: string)
    ensures DecodeChars(EscapeAll(s) + "\"" + rest) == Ok((s, rest))
    decreases |s|
  {
    if |s| == 0 {
      assert EscapeAll(s) + "\"" + rest == "\"" + rest;
    } else {
      var tail := EscapeAll(s[1..]) + "\"" + rest;
      assert EscapeAll(s) + "\"" + rest == EscapeChar(s[0]) + tail;
      DecodeEscapeAll(s[1..], rest);
      DecodeEscapeChar(s[0], tail);
      assert [s[0]] + s[1..] == s;
    }
  }

  /** A quoted string decodes to the string it quotes (the round trip of
      section 7 of RFC 8259). */
  lemma DecodeQuote(s: string, rest: string)
    ensures DecodeString(Quote(s) + rest) == Ok((s, rest))
  {
    var t := Quote(s) + rest;
    assert t[1..] == EscapeAll(s) + "\"" + rest;
    DecodeEscapeAll(s, rest);
  }

  /** Leading whitespace is only skipped where there is some. */
  lemma SkipWsNone(t: string)
    requires |t| > 0 && !IsWs(t[0])
    ensures SkipWs(t) == t
  {
  }

  /** The single member `"key":"value"}` decodes to the one-entry map. */
  lemma DecodeOneMember(key: string, value: string)
    ensures DecodeMembers(Quote(key) + ":" + Quote(value) + "}", map[]) == Ok(map[key := value])
  {
    var afterValue := "}";
    var afterKey := ":" + Quote(value) + afterValue;
    var t := Quote(key) + afterKey;
    assert t == Quote(key) + ":" + Quote(value) + "}";
    SkipWsNone(t);
    DecodeQuote(key, afterKey);
    SkipWsNone(afterKey);
    assert afterKey[1..] == Quote(value) + afterValue;
    SkipWsNone(afterKey[1..]);
    DecodeQuote(value, afterValue);
    SkipWsNone(afterValue);
    assert afterValue[1..] == "";
  }

  /** The body the transformer produces decodes to exactly the one-key map
      `{key: value}`. */
  lemma UnmarshalMarshal(key: string, value: string)
    ensures Unmarshal(Marshal(key, value)) == Ok(map[key := value])
  {
    var members := Quote(key) + ":" + Quote(value) + "}";
    var t := Marshal(key, value);
    assert t == "{" + members;
    SkipWsNone(t);
    assert t[1..] == members;
    assert members[0] == '"';
    SkipWsNone(members);
    DecodeOneMember(key, value);
  }

  /** Different entries give different bodies. */
  lemma MarshalInjective(k1: string, v1: string, k2: string, v2: string)
    requires Marshal(k1, v1) == Marshal(k2, v2)
    ensures k1 == k2 && v1 == v2
  {
    UnmarshalMarshal(k1, v1);
    UnmarshalMarshal(k2, v2);
    var m1, m2 := map[k1 := v1], map[k2 := v2];
    assert m1 == m2;
    assert k1 in m2;
  }

  /** Text without quotation marks, reverse solidi or control characters is
      written as it is. */
  lemma {:induction false} EscapeAllPlain(s: string)
    requires forall i :: 0 <= i < |s| ==> s[i] != '"' && s[i] != '\\' && !IsControl(s[i])
    ensures EscapeAll(s) == s
    decreases |s|
  {
    if |s| > 0 {
      EscapeAllPlain(s[1..]);
      assert [s[0]] + s[1..] == s;
    }
  }

  /** Every character the encoder emits inside a literal is printable: control
      characters never appear raw, as RFC 8259 requires. */
  lemma {:induction false} EscapeAllPrintable(s: string)
    ensures forall i :: 0 <= i < |EscapeAll(s)| ==> !IsControl(EscapeAll(s)[i])
    decreases |s|
  {
    if |s| > 0 {
      EscapeAllPrintable(s[1..]);
      var e, t := EscapeChar(s[0]), EscapeAll(s[1..]);
      assert EscapeAll(s) == e + t;
      forall i | 0 <= i < |e + t| ensures !IsControl((e + t)[i]) {
        if i >= |e| {
          assert (e + t)[i] == t[i - |e|];
        }
      }
    }
  }

}
