/** `getUserRole` (frontend/src/utils/jwt.js): take the second dot-separated segment of the
    token, decode it with `atob`, parse it with `JSON.parse`, read its `role`; any exception
    yields null. `atob` is modelled exactly, as the forgiving-base64 decode of the WHATWG
    Infra standard over the standard alphabet of section 4 of RFC 4648; `JSON.parse` is a
    parameter, returning None where it throws. */
module Jwt {
  import opened Common

  /** The JSON values `JSON.parse` produces. An object keeps its members in source order. */
  datatype Json =
    | JNull
    | JBool(b: bool)
    | JNumber(n: int)
    | JString(s: string)
    | JArray(items: seq<Json>)
    | JObject(members: seq<(string, Json)>)

  /** What `getUserRole` returns: `undefined`, or a JSON value (JS `null` is `Defined(JNull)`). */
  datatype RoleValue = Undefined | Defined(value: Json)

  // ----- token.split(".")[1] -----

  /** The text before the first '.', or all of `s`. */
  function UpToDot(s: string): (r: string)
    ensures |r| <= |s| && r == s[..|r|] && '.' !in r
    ensures |r| < |s| ==> s[|r|] == '.'
  {
    if s == [] || s[0] == '.' then [] else [s[0]] + UpToDot(s[1..])
  }

  /** `token.split(".")[1]`: None (JS `undefined`) when the token has no '.'. */
  function SecondSegment(token: string): (r: Option<string>)
    ensures r.None? <==> '.' !in token
  {
    var first := UpToDot(token);
    if |first| == |token| then None else Some(UpToDot(token[|first| + 1..]))
  }

  /** Only the second segment counts: whatever follows the second '.' is ignored. */
  lemma SecondSegmentOfThree(a: string, b: string, c: string)
    requires '.' !in a && '.' !in b
    ensures SecondSegment(a + "." + b + "." + c) == Some(b)
  {
    var t := a + "." + b + "." + c;
    assert t == a + ("." + b + "." + c);
    UpToDotPrefix(a, "." + b + "." + c);
    assert t[|a| + 1..] == b + ("." + c);
    UpToDotPrefix(b, "." + c);
  }

  /** A dot-free prefix followed by a dot is what `UpToDot` returns. */
  lemma {:induction false} UpToDotPrefix(a: string, rest: string)
    requires '.' !in a && rest != [] && rest[0] == '.'
    ensures UpToDot(a + rest) == a
  {
    if a != [] {
      assert (a + rest)[1..] == a[1..] + rest;
      UpToDotPrefix(a[1..], rest);
    }
  }

  // ----- atob -----

  predicate IsAsciiWhitespace(c: char)
  {
    c == '\t' || c == '\n' || c == '\U{000C}' || c == '\r' || c == ' '
  }

  /** The 64 characters of the standard base64 alphabet. */
  predicate InAlphabet(c: char)
  {
    ('A' <= c <= 'Z') || ('a' <= c <= 'z') || ('0' <= c <= '9') || c == '+' || c == '/'
  }

  predicate AllInAlphabet(s: string)
  {
    forall k :: 0 <= k < |s| ==> InAlphabet(s[k])
  }

  /** The six bits a base64 character stands for. */
  function Sextet(c: char): (v: int)
    requires InAlphabet(c)
    ensures 0 <= v < 64
  {
    if 'A' <= c <= 'Z' then c as int - 'A' as int
    else if 'a' <= c <= 'z' then c as int - 'a' as int + 26
    else if '0' <= c <= '9' then c as int - '0' as int + 52
    else if c == '+' then 62
    else 63
  }

  /** Base64 decoding of the alphabet characters from position `i` on: four characters to
      three bytes, a final group of two or three characters to one or two bytes (the leftover
      bits are dropped). */
  function DecodeFrom(s: string, i: nat): (r: string)
    requires i <= |s| && AllInAlphabet(s) && (|s| - i) % 4 != 1
    ensures forall k :: 0 <= k < |r| ==> r[k] as int < 256
    decreases |s| - i
  {
    if i == |s| then []
    else
      var v0 := Sextet(s[i]);
      var v1 := Sextet(s[i + 1]);
      var b0 := (v0 * 4 + v1 / 16) as char;
      if i + 2 == |s| then [b0]
      else
        var v2 := Sextet(s[i + 2]);
        var b1 := ((v1 % 16) * 16 + v2 / 4) as char;
        if i + 3 == |s| then [b0, b1]
        else
          var v3 := Sextet(s[i + 3]);
          var b2 := ((v2 % 4) * 64 + v3) as char;
          [b0, b1, b2] + DecodeFrom(s, i + 4)
  }

  /** One or two '=' removed from the end of a string whose length is a multiple of four. */
  function StripPadding(s: string): (r: string)
    ensures |r| <= |s| && r == s[..|r|]
  {
    if |s| % 4 != 0 || s == [] || s[|s| - 1] != '=' then s
    else if s[|s| - 2] == '=' then s[..|s| - 2]
    else s[..|s| - 1]
  }

  /** `atob`: None where it throws InvalidCharacterError. */
  function Atob(input: string): (r: Option<string>)
    ensures r.Some? ==> forall k :: 0 <= k < |r.value| ==> r.value[k] as int < 256
  {
    var data := StripPadding(Filter(input, (c: char) => !IsAsciiWhitespace(c)));
    if |data| % 4 == 1 then None
    else if !AllInAlphabet(data) then None
    else Some(DecodeFrom(data, 0))
  }

  /** An input holding a character outside the alphabet other than whitespace and final
      padding, such as the '-' and '_' of the base64url alphabet, is refused. */
  lemma AtobRefusesUrlAlphabet(input: string, k: nat)
    requires k < |input| && (input[k] == '-' || input[k] == '_')
    ensures Atob(input).None?
  {
    var p := (c: char) => !IsAsciiWhitespace(c);
    var kept := Filter(input, p);
    FilterCount(input, p, input[k]);
    assert input[k] in multiset(input);
    assert input[k] in multiset(kept);
    var j :| 0 <= j < |kept| && kept[j] == input[k];
    var data := StripPadding(kept);
    if |data| % 4 != 1 {
      if j < |data| {
        assert data[j] == kept[j];
        assert !InAlphabet(data[j]);
      } else {
        assert false;
      }
    }
  }

  // ----- JSON.parse(…).role -----

  /** `value.role`: the last member called "role" of an object (JSON.parse keeps the last of
      duplicate keys), `undefined` for an object without one and for every other
      non-null value, and a TypeError, hence null, for null. */
  function RoleOf(value: Json): (r: RoleValue)
  {
    match value
    case JNull => Defined(JNull)
    case JObject(members) => LastMember(members, "role", |members|)
    case _ => Undefined
  }

  /** The value of the last of the first `n` members called `key`. */
  function LastMember(members: seq<(string, Json)>, key: string, n: nat): (r: RoleValue)
    requires n <= |members|
    ensures r.Undefined? <==> forall k :: 0 <= k < n ==> members[k].0 != key
    ensures r.Defined? ==> exists k :: 0 <= k < n && members[k].0 == key && r.value == members[k].1 &&
                             forall j :: k < j < n ==> members[j].0 != key
  {
    if n == 0 then Undefined
    else if members[n - 1].0 == key then Defined(members[n - 1].1)
    else LastMember(members, key, n - 1)
  }

  /** `getUserRole`. `atob(undefined)` decodes the text "undefined". */
  function GetUserRole(token: string, parse: string -> Option<Json>): (r: RoleValue)
  {
    match SecondSegment(token)
    case None => RoleOfSegment("undefined", parse)
    case Some(segment) => RoleOfSegment(segment, parse)
  }

  /** `JSON.parse(atob(segment)).role`, null where `atob`, `JSON.parse` or the property
      access throws. */
  function RoleOfSegment(segment: string, parse: string -> Option<Json>): (r: RoleValue)
  {
    match Atob(segment)
    case None => Defined(JNull)
    case Some(text) =>
      match parse(text)
      case None => Defined(JNull)
      case Some(value) => RoleOf(value)
  }

  /** A token without a '.' yields null: "undefined" has nine characters, and a base64 text
      of length 1 modulo 4 is refused. */
  lemma NoDotYieldsNull(token: string, parse: string -> Option<Json>)
    requires '.' !in token
    ensures GetUserRole(token, parse) == Defined(JNull)
  {
    NoWhitespace("undefined");
  }

  /** A payload segment in the base64url alphabet yields null, whatever JSON.parse would do. */
  lemma UrlSafePayloadYieldsNull(token: string, parse: string -> Option<Json>, k: nat)
    requires SecondSegment(token).Some?
    requires k < |SecondSegment(token).value|
    requires SecondSegment(token).value[k] == '-' || SecondSegment(token).value[k] == '_'
    ensures GetUserRole(token, parse) == Defined(JNull)
  {
    AtobRefusesUrlAlphabet(SecondSegment(token).value, k);
  }

  /** Any failure of JSON.parse yields null. */
  lemma ParseFailureYieldsNull(token: string, parse: string -> Option<Json>)
    requires SecondSegment(token).Some? && Atob(SecondSegment(token).value).Some?
    requires parse(Atob(SecondSegment(token).value).value).None?
    ensures GetUserRole(token, parse) == Defined(JNull)
  {
  }

  /** A token whose payload segment is "eyJyb2xlIjoiYWRtaW4ifQ", the base64 text of
      `{"role":"admin"}`: given that JSON.parse reads that text as an object with one member,
      the role is "admin", whatever the header and the signature. */
  lemma AdminExample(header: string, payload: string, signature: string, parse: string -> Option<Json>)
    requires '.' !in header && payload == "eyJyb2xlIjoiYWRtaW4ifQ"
    requires parse("{\"role\":\"admin\"}") == Some(JObject([("role", JString("admin"))]))
    ensures GetUserRole(header + "." + payload + "." + signature, parse) == Defined(JString("admin"))
  {
    ExampleInAlphabet();
    NoDotInAlphabet(payload);
    SecondSegmentOfThree(header, payload, signature);
    AtobExample(payload);
    var members := [("role", JString("admin"))];
    assert RoleOf(JObject(members)) == Defined(JString("admin"));
    assert RoleOfSegment(payload, parse) == Defined(JString("admin"));
  }

  lemma NoDotInAlphabet(s: string)
    requires AllInAlphabet(s)
    ensures '.' !in s
  {
  }

  /** `atob` of the example payload. */
  lemma AtobExample(s: string)
    requires s == "eyJyb2xlIjoiYWRtaW4ifQ"
    ensures Atob(s) == Some("{\"role\":\"admin\"}")
  {
    ExampleInAlphabet();
    DecodeExample(s);
    AtobOfAlphabet(s);
  }

  /** The example payload decodes to `{"role":"admin"}`. */
  lemma DecodeExample(s: string)
    requires s == "eyJyb2xlIjoiYWRtaW4ifQ" && AllInAlphabet(s)
    ensures DecodeFrom(s, 0) == "{\"role\":\"admin\"}"
  {
    DecodeExampleGroup0(s);
    DecodeExampleGroup1(s);
    DecodeExampleGroup2(s);
    DecodeExampleGroup3(s);
    DecodeExampleGroup4(s);
    DecodeExampleGroup5(s);
  }

  lemma ExampleInAlphabet()
    ensures AllInAlphabet("eyJyb2xlIjoiYWRtaW4ifQ")
  {
  }

  // The example payload, decoded one group of four characters at a time.

  lemma DecodeExampleGroup0(s: string)
    requires s == "eyJyb2xlIjoiYWRtaW4ifQ" && AllInAlphabet(s)
    ensures DecodeFrom(s, 0) == "{\"r" + DecodeFrom(s, 4)
  {
  }

  lemma DecodeExampleGroup1(s: string)
    requires s == "eyJyb2xlIjoiYWRtaW4ifQ" && AllInAlphabet(s)
    ensures DecodeFrom(s, 4) == "ole" + DecodeFrom(s, 8)
  {
  }

  lemma DecodeExampleGroup2(s: string)
    requires s == "eyJyb2xlIjoiYWRtaW4ifQ" && AllInAlphabet(s)
    ensures DecodeFrom(s, 8) == "\":\"" + DecodeFrom(s, 12)
  {
  }

  lemma DecodeExampleGroup3(s: string)
    requires s == "eyJyb2xlIjoiYWRtaW4ifQ" && AllInAlphabet(s)
    ensures DecodeFrom(s, 12) == "adm" + DecodeFrom(s, 16)
  {
  }

  lemma DecodeExampleGroup4(s: string)
    requires s == "eyJyb2xlIjoiYWRtaW4ifQ" && AllInAlphabet(s)
    ensures DecodeFrom(s, 16) == "in\"" + DecodeFrom(s, 20)
  {
  }

  lemma DecodeExampleGroup5(s: string)
    requires s == "eyJyb2xlIjoiYWRtaW4ifQ" && AllInAlphabet(s)
    ensures DecodeFrom(s, 20) == "}"
  {
  }

  /** Text made only of alphabet characters, of a valid length, is decoded as it stands. */
  lemma AtobOfAlphabet(s: string)
    requires AllInAlphabet(s)
    requires |s| % 4 != 1
    ensures Atob(s) == Some(DecodeFrom(s, 0))
  {
    NoWhitespace(s);
    assert StripPadding(s) == s by {
      if s != [] {
        assert InAlphabet(s[|s| - 1]);
      }
    }
  }

  /** A text without whitespace is left alone by the whitespace removal. */
  lemma {:induction false} NoWhitespace(s: string)
    requires AllInAlphabet(s)
    ensures Filter(s, (c: char) => !IsAsciiWhitespace(c)) == s
  {
    if s != [] {
      NoWhitespace(s[1..]);
    }
  }

  /** An object payload without a `role` member, whatever its other members, yields
      undefined; a JSON null payload yields null. */
  lemma MissingRoleIsUndefined(token: string, parse: string -> Option<Json>, members: seq<(string, Json)>)
    requires SecondSegment(token).Some? && Atob(SecondSegment(token).value).Some?
    ensures (&& parse(Atob(SecondSegment(token).value).value) == Some(JObject(members))
             && (forall k :: 0 <= k < |members| ==> members[k].0 != "role")) ==>
      GetUserRole(token, parse) == Undefined
    ensures parse(Atob(SecondSegment(token).value).value) == Some(JNull) ==>
      GetUserRole(token, parse) == Defined(JNull)
  {
  }
}
