/** The PAN search in app/services/ocr_service.py: `re.search(PAN_REGEX, text)` over the text
    the OCR engine produced (reading the image is not part of this model). `re.search` tries
    the pattern at each position from the left and takes the first that matches. */
module OcrService {
  import opened Common
  import opened PanValidator

  /** The first position at or after `from` where `pattern` matches. */
  function SearchFrom(pattern: seq<CharClass>, text: string, from: nat): (r: Option<nat>)
    requires from <= |text|
    ensures r.Some? ==> from <= r.value && MatchAt(pattern, text, r.value)
    ensures r.Some? ==> forall j :: from <= j < r.value ==> !MatchAt(pattern, text, j)
    ensures r.None? <==> forall j :: from <= j <= |text| ==> !MatchAt(pattern, text, j)
    decreases |text| - from
  {
    if MatchAt(pattern, text, from) then Some(from)
    else if from == |text| then None
    else SearchFrom(pattern, text, from + 1)
  }

  /** A PAN occurs at position `i` of `text`. */
  ghost predicate PanAt(text: string, i: int)
  {
    0 <= i && i + 10 <= |text| && PanShape(text[i..i + 10])
  }

  /** The text-scanning part of `extract_pan_from_image`: the leftmost PAN-shaped substring. */
  function ExtractPan(text: string): (r: Option<string>)
    ensures r.None? <==> forall i :: 0 <= i <= |text| ==> !PanAt(text, i)
    ensures r.Some? ==>
      exists i :: PanAt(text, i) && r.value == text[i..i + 10] &&
        forall j :: 0 <= j < i ==> !PanAt(text, j)
  {
    assert forall i :: 0 <= i <= |text| ==> (PanAt(text, i) <==> MatchAt(PanPattern, text, i)) by {
      forall i | 0 <= i <= |text| ensures PanAt(text, i) <==> MatchAt(PanPattern, text, i) {
        MatchAtPan(text, i);
      }
    }
    match SearchFrom(PanPattern, text, 0)
    case None => None
    case Some(i) => Some(text[i..i + 10])
  }

  /** What the scan returns is ten characters long and passes `is_valid_pan`. */
  lemma ExtractedPanIsValid(text: string)
    requires ExtractPan(text).Some?
    ensures |ExtractPan(text).value| == 10 && IsValidPan(ExtractPan(text).value)
  {
  }

  /** The leftmost PAN wins over any later one. */
  lemma ExtractLeftmost(text: string, i: nat)
    requires PanAt(text, i)
    ensures ExtractPan(text).Some?
    ensures exists k :: 0 <= k <= i && PanAt(text, k) && ExtractPan(text).value == text[k..k + 10]
  {
  }
}
