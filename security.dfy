/** Password hashing and access tokens (app/core/security.py). bcrypt and jose are foreign
    libraries: a hash is modelled as a salted tag of the bcrypt key of the password (the first
    72 bytes of its UTF-8 encoding, the only part bcrypt reads), and a token as a signed
    payload that only the server can produce. */
module Security {
  import opened Common

  /** A bcrypt hash: the random salt and the key it was made from. */
  datatype PasswordHash = Bcrypt(salt: string, key: seq<nat>)

  /** The claims put in an access token: `sub` and `role` (the `exp` claim is not modelled). */
  datatype Payload = Payload(sub: string, role: string)

  /** A bearer token as presented to the server: either one the server signed, or
      anything else (malformed, tampered, signed with another key). */
  datatype Token = Signed(payload: Payload) | Unsigned(raw: string)

  // ----- `password.encode()`: UTF-8 -----

  /** The UTF-8 encoding of one character (RFC 3629, section 3): one to four bytes. */
  function EncodeChar(c: char): (bytes: seq<nat>)
    ensures 1 <= |bytes| <= 4
    ensures forall k :: 0 <= k < |bytes| ==> bytes[k] < 256
  {
    var n := c as int;
    var q1, r1 := n / 64, n % 64;
    var q2, r2 := q1 / 64, q1 % 64;
    var q3, r3 := q2 / 64, q2 % 64;
    if n < 0x80 then [n]
    else if n < 0x800 then [0xC0 + q1, 0x80 + r1]
    else if n < 0x10000 then [0xE0 + q2, 0x80 + r2, 0x80 + r1]
    else [0xF0 + q3, 0x80 + r3, 0x80 + r2, 0x80 + r1]
  }

  /** How many bytes a UTF-8 sequence starting with `lead` has. */
  function SequenceLength(lead: nat): nat
  {
    if lead < 0x80 then 1 else if lead < 0xE0 then 2 else if lead < 0xF0 then 3 else 4
  }

  /** The code point of one encoded character. */
  function DecodeChar(bytes: seq<int>): int
    requires 1 <= |bytes| <= 4
  {
    if |bytes| == 1 then bytes[0]
    else if |bytes| == 2 then (bytes[0] - 0xC0) * 64 + (bytes[1] - 0x80)
    else if |bytes| == 3 then ((bytes[0] - 0xE0) * 64 + (bytes[1] - 0x80)) * 64 + (bytes[2] - 0x80)
    else (((bytes[0] - 0xF0) * 64 + (bytes[1] - 0x80)) * 64 + (bytes[2] - 0x80)) * 64 + (bytes[3] - 0x80)
  }

  /** The lead byte tells the length, and the bytes give back the character. */
  lemma EncodeCharDecodes(c: char)
    ensures SequenceLength(EncodeChar(c)[0]) == |EncodeChar(c)|
    ensures DecodeChar(EncodeChar(c)) == c as int
  {
    var n := c as int;
    var q1, r1 := n / 64, n % 64;
    var q2, r2 := q1 / 64, q1 % 64;
    var q3, r3 := q2 / 64, q2 % 64;
    assert n == q1 * 64 + r1 && q1 == q2 * 64 + r2 && q2 == q3 * 64 + r3;
  }

  /** `str.encode()`, UTF-8 being Python's default encoding. */
  function Utf8(s: string): (bytes: seq<nat>)
    ensures |bytes| >= |s|
  {
    if s == [] then [] else EncodeChar(s[0]) + Utf8(s[1..])
  }

  /** Different strings have different encodings. */
  lemma {:induction false} Utf8Injective(s: string, t: string)
    requires Utf8(s) == Utf8(t)
    ensures s == t
  {
    if s != [] && t != [] {
      var es, et := EncodeChar(s[0]), EncodeChar(t[0]);
      EncodeCharDecodes(s[0]);
      EncodeCharDecodes(t[0]);
      assert es[0] == Utf8(s)[0] && et[0] == Utf8(t)[0];
      assert |es| == |et|;
      assert es == Utf8(s)[..|es|] && et == Utf8(t)[..|et|];
      assert Utf8(s[1..]) == Utf8(s)[|es|..] && Utf8(t[1..]) == Utf8(t)[|et|..];
      Utf8Injective(s[1..], t[1..]);
      assert s == [s[0]] + s[1..] && t == [t[0]] + t[1..];
    }
  }

  /** Encoding distributes over concatenation. */
  lemma {:induction false} Utf8Append(s: string, t: string)
    ensures Utf8(s + t) == Utf8(s) + Utf8(t)
  {
    if s == [] {
      assert s + t == t;
    } else {
      assert (s + t)[0] == s[0] && (s + t)[1..] == s[1..] + t;
      Utf8Append(s[1..], t);
    }
  }

  // ----- bcrypt -----

  /** The part of the password bcrypt hashes: the first 72 bytes of `password.encode()`;
      the rest is ignored. */
  function BcryptKey(password: string): (key: seq<nat>)
    ensures |key| <= 72
    ensures |Utf8(password)| <= 72 ==> key == Utf8(password)
    ensures |Utf8(password)| > 72 ==> key == Utf8(password)[..72]
  {
    var bytes := Utf8(password);
    if |bytes| <= 72 then bytes else bytes[..72]
  }

  /** `hash_password`, with the salt bcrypt would draw supplied by the caller. */
  function HashPassword(password: string, salt: string): (h: PasswordHash)
    ensures VerifyPassword(password, h)
    ensures h.salt == salt
  {
    Bcrypt(salt, BcryptKey(password))
  }

  /** `verify_password`: true exactly when `hashed` was made from a password with the same
      bcrypt key. */
  predicate VerifyPassword(password: string, hashed: PasswordHash)
  {
    hashed.key == BcryptKey(password)
  }

  /** A hash accepts exactly the passwords that agree with its own on the first 72 bytes; among
      passwords of at most 72 bytes, only the one it was made from. */
  lemma HashRejectsOtherPasswords(password: string, other: string, salt: string)
    ensures VerifyPassword(other, HashPassword(password, salt)) <==> BcryptKey(other) == BcryptKey(password)
    ensures |Utf8(password)| <= 72 && |Utf8(other)| <= 72 ==>
      (VerifyPassword(other, HashPassword(password, salt)) <==> other == password)
  {
    if |Utf8(password)| <= 72 && |Utf8(other)| <= 72 && BcryptKey(other) == BcryptKey(password) {
      Utf8Injective(other, password);
    }
  }

  /** Beyond 72 bytes bcrypt cannot tell passwords apart: two passwords that share their first
      72 bytes, however they continue, both verify against either's hash. */
  lemma LongPasswordsCollide(password: string, other: string, salt: string)
    requires |Utf8(password)| >= 72 && |Utf8(other)| >= 72
    requires Utf8(password)[..72] == Utf8(other)[..72]
    ensures VerifyPassword(other, HashPassword(password, salt))
  {
    var p, o := Utf8(password), Utf8(other);
    assert BcryptKey(password) == p[..72] by {
      if |p| == 72 { assert p[..72] == p; }
    }
    assert BcryptKey(other) == o[..72] by {
      if |o| == 72 { assert o[..72] == o; }
    }
  }

  /** `create_access_token`. */
  function CreateAccessToken(claims: Payload): (t: Token)
    ensures DecodeToken(t) == Some(claims)
  {
    Signed(claims)
  }

  /** `jwt.decode`: the claims of a token the server signed, or None where jose raises JWTError. */
  function DecodeToken(t: Token): (r: Option<Payload>)
    ensures r.Some? <==> t.Signed?
  {
    match t
    case Signed(p) => Some(p)
    case Unsigned(_) => None
  }

  /** Two different passwords that extend one prefix of at least 72 characters are both
      accepted by either's hash, whatever they differ in after it. */
  lemma SharedPrefixCollides(prefix: string, x: string, y: string, salt: string)
    requires |prefix| >= 72 && x != y
    ensures prefix + x != prefix + y
    ensures VerifyPassword(prefix + y, HashPassword(prefix + x, salt))
  {
    assert (prefix + x)[|prefix|..] == x && (prefix + y)[|prefix|..] == y;
    Utf8Append(prefix, x);
    Utf8Append(prefix, y);
    var u := Utf8(prefix);
    assert (u + Utf8(x))[..72] == u[..72] == (u + Utf8(y))[..72];
    LongPasswordsCollide(prefix + x, prefix + y, salt);
  }
}
