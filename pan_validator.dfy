/** PAN validation (app/utils/pan_validator.py): `re.match(r"^[A-Z]{5}[0-9]{4}[A-Z]$", pan)`.
    The pattern is a fixed sequence of ten character classes; Python's `$` matches at the end
    of the string and also just before a newline that ends it. */
module PanValidator {

  /** The two classes the pattern uses; both are ASCII ranges (no IGNORECASE, no Unicode digits). */
  datatype CharClass = Upper | Digit

  predicate InClass(c: char, cls: CharClass)
  {
    match cls
    case Upper => 'A' <= c <= 'Z'
    case Digit => '0' <= c <= '9'
  }

  /** `[A-Z]{5}[0-9]{4}[A-Z]`, one class per character. */
  const PanPattern: seq<CharClass> :=
    [Upper, Upper, Upper, Upper, Upper, Digit, Digit, Digit, Digit, Upper]

  /** The shape of a PAN: five capital letters, four digits, one capital letter. */
  predicate PanShape(s: string)
  {
    && |s| == 10
    && (forall k :: 0 <= k < 5 ==> 'A' <= s[k] <= 'Z')
    && (forall k :: 5 <= k < 9 ==> '0' <= s[k] <= '9')
    && 'A' <= s[9] <= 'Z'
  }

  /** The regex engine matching `pattern` against `s` starting at `pos`. */
  function MatchAt(pattern: seq<CharClass>, s: string, pos: nat): bool
    decreases |pattern|
  {
    if pattern == [] then true
    else pos < |s| && InClass(s[pos], pattern[0]) && MatchAt(pattern[1..], s, pos + 1)
  }

  /** `$` at `pos`: the end of the string, or a final newline. */
  predicate DollarAt(s: string, pos: nat)
  {
    pos == |s| || (pos + 1 == |s| && s[pos] == '\n')
  }

  /** `is_valid_pan`. */
  function IsValidPan(pan: string): (ok: bool)
    ensures ok <==> PanShape(pan) || (|pan| == 11 && pan[10] == '\n' && PanShape(pan[..10]))
  {
    MatchAtPan(pan, 0);
    assert |pan| == 10 ==> pan[..10] == pan;
    MatchAt(PanPattern, pan, 0) && DollarAt(pan, 10)
  }

  lemma {:induction false} MatchAtClasses(pattern: seq<CharClass>, s: string, pos: nat)
    requires pos <= |s|
    ensures MatchAt(pattern, s, pos) <==>
      pos + |pattern| <= |s| && forall k :: 0 <= k < |pattern| ==> InClass(s[pos + k], pattern[k])
    decreases |pattern|
  {
    if pattern != [] && pos < |s| {
      var tail := pattern[1..];
      MatchAtClasses(tail, s, pos + 1);
      if MatchAt(pattern, s, pos) {
        forall k | 0 <= k < |pattern| ensures InClass(s[pos + k], pattern[k]) {
          if k > 0 { assert InClass(s[pos + 1 + (k - 1)], tail[k - 1]); }
        }
      }
      if pos + |pattern| <= |s| && forall k :: 0 <= k < |pattern| ==> InClass(s[pos + k], pattern[k]) {
        forall k | 0 <= k < |tail| ensures InClass(s[pos + 1 + k], tail[k]) {
          assert InClass(s[pos + (k + 1)], pattern[k + 1]);
        }
        assert InClass(s[pos + 0], pattern[0]);
      }
    }
  }

  /** The matcher accepts at `pos` exactly when the ten characters from `pos` have the PAN shape. */
  lemma MatchAtPan(s: string, pos: nat)
    requires pos <= |s|
    ensures MatchAt(PanPattern, s, pos) <==> pos + 10 <= |s| && PanShape(s[pos..pos + 10])
  {
    MatchAtClasses(PanPattern, s, pos);
    if pos + 10 <= |s| {
      var w := s[pos..pos + 10];
      assert forall k :: 0 <= k < 10 ==> w[k] == s[pos + k];
      ShapeIsPattern(w);
    }
  }

  /** The shape, class by class. */
  lemma ShapeIsPattern(w: string)
    requires |w| == 10
    ensures PanShape(w) <==> forall k :: 0 <= k < 10 ==> InClass(w[k], PanPattern[k])
  {
    assert forall k :: 0 <= k < 5 ==> PanPattern[k] == Upper;
    assert forall k :: 5 <= k < 9 ==> PanPattern[k] == Digit;
  }

  lemma AcceptsExample(pan: string)
    requires pan == "ABCDE1234F"
    ensures IsValidPan(pan)
  {
  }

  /** Python's `$` lets one trailing newline through, but not two, and no other character. */
  lemma AcceptsTrailingNewline(pan: string)
    requires pan == "ABCDE1234F\n"
    ensures IsValidPan(pan)
  {
    assert pan[..10] == "ABCDE1234F";
  }

  lemma RejectsTwoNewlines(pan: string)
    requires pan == "ABCDE1234F\n\n"
    ensures !IsValidPan(pan)
  {
  }

  lemma RejectsTrailingSpace(pan: string)
    requires pan == "ABCDE1234F "
    ensures !IsValidPan(pan)
  {
  }

  /** Lower-case letters and non-ASCII digits (here FULLWIDTH DIGIT ONE) are rejected. */
  lemma RejectsLowercase(pan: string)
    requires pan == "abcde1234f" || pan == "ABCDe1234F"
    ensures !IsValidPan(pan)
  {
  }

  lemma RejectsWideDigits(pan: string)
    requires pan == "ABCDE１234F"
    ensures !IsValidPan(pan)
  {
  }

  /** A valid PAN is ten characters long, or eleven of which the last is a newline. */
  lemma ValidPanLength(pan: string)
    requires IsValidPan(pan)
    ensures |pan| == 10 || (|pan| == 11 && pan[10] == '\n')
  {
  }
}
