/** `extract_place_id`: the first `?cid=<digits>` of a maps URL, i.e. the result of
    `re.search(r'\?cid=(\d+)', url).group(1)`. On a `str` pattern `\d` is the Unicode
    decimal-digit class (category Nd) of the runtime's character database; the model
    takes that class as the parameter `isDecimal`. */
module PlaceId {
  import opened PyValue
  import opened PyText

  const Marker: string := "?cid="

  /** `d` is a non-empty run of characters of the class `isDecimal`. */
  predicate DecimalRun(d: string, isDecimal: char -> bool) {
    d != [] && forall k | 0 <= k < |d| :: isDecimal(d[k])
  }

  /** The pattern matches at `i`: the marker, then at least one decimal digit. */
  predicate MatchAt(url: string, i: int, isDecimal: char -> bool) {
    0 <= i && i + |Marker| < |url| && url[i..i + |Marker|] == Marker && isDecimal(url[i + |Marker|])
  }

  /** The longest run of decimal digits at the start of `s` (what a greedy `\d+` consumes). */
  function TakeDigits(s: string, isDecimal: char -> bool): (r: string)
    ensures |r| <= |s| && r == s[..|r|]
    ensures forall k | 0 <= k < |r| :: isDecimal(r[k])
    ensures |r| < |s| ==> !isDecimal(s[|r|])
  {
    if s != [] && isDecimal(s[0]) then [s[0]] + TakeDigits(s[1..], isDecimal) else []
  }

  /** The regex engine's scan: try each start position from `i` on, leftmost first. */
  function Search(url: string, i: nat, isDecimal: char -> bool): (r: Option<string>)
    requires i <= |url|
    ensures r.Some? <==> exists j | i <= j < |url| :: MatchAt(url, j, isDecimal)
    ensures r.Some? ==> exists j | i <= j < |url| ::
      MatchAt(url, j, isDecimal) && (forall k | i <= k < j :: !MatchAt(url, k, isDecimal)) &&
      r.value == TakeDigits(url[j + |Marker|..], isDecimal)
    decreases |url| - i
  {
    if i + |Marker| >= |url| then
      assert forall j | i <= j < |url| :: !MatchAt(url, j, isDecimal);
      None
    else if MatchAt(url, i, isDecimal) then Some(TakeDigits(url[i + |Marker|..], isDecimal))
    else
      var r := Search(url, i + 1, isDecimal);
      assert forall j | i <= j < |url| && MatchAt(url, j, isDecimal) :: i + 1 <= j;
      r
  }

  /** `extract_place_id(url)`: `Some(d)` exactly when `?cid=` followed by a decimal digit
      occurs; then `d` is the whole digit run after the leftmost such occurrence. */
  function ExtractPlaceId(url: string, isDecimal: char -> bool): (r: Option<string>)
    ensures r.Some? <==> exists j | 0 <= j < |url| :: MatchAt(url, j, isDecimal)
    ensures r.Some? ==> exists j | 0 <= j < |url| ::
      MatchAt(url, j, isDecimal) && (forall k | 0 <= k < j :: !MatchAt(url, k, isDecimal)) &&
      r.value == TakeDigits(url[j + |Marker|..], isDecimal)
  {
    Search(url, 0, isDecimal)
  }

  /** The digits taken at a match, preceded by the marker, are found at that match. */
  lemma MatchShape(url: string, j: int, isDecimal: char -> bool)
    requires MatchAt(url, j, isDecimal)
    ensures DecimalRun(TakeDigits(url[j + |Marker|..], isDecimal), isDecimal)
    ensures OccursAt(Marker + TakeDigits(url[j + |Marker|..], isDecimal), url, j)
  {
    var rest := url[j + |Marker|..];
    var d := TakeDigits(rest, isDecimal);
    assert rest[0] == url[j + |Marker|];
    assert |d| > 0;
    assert url[j..j + |Marker| + |d|] == url[j..j + |Marker|] + rest[..|d|];
  }

  /** What the caller gets: a non-empty string of decimal digits that, preceded by `?cid=`,
      is part of the URL. */
  lemma ExtractedIdShape(url: string, isDecimal: char -> bool)
    requires ExtractPlaceId(url, isDecimal).Some?
    ensures DecimalRun(ExtractPlaceId(url, isDecimal).value, isDecimal)
    ensures IsSubstring(Marker + ExtractPlaceId(url, isDecimal).value, url)
  {
    var d := ExtractPlaceId(url, isDecimal).value;
    var j :| 0 <= j < |url| && MatchAt(url, j, isDecimal) && d == TakeDigits(url[j + |Marker|..], isDecimal);
    MatchShape(url, j, isDecimal);
  }

  /** A URL without the marker yields nothing, whatever the digit class. */
  lemma NoMarkerNoId(url: string, isDecimal: char -> bool)
    requires !IsSubstring(Marker, url)
    ensures ExtractPlaceId(url, isDecimal) == None
  {
    if ExtractPlaceId(url, isDecimal).Some? {
      var j :| 0 <= j < |url| && MatchAt(url, j, isDecimal);
      assert OccursAt(Marker, url, j);
    }
  }

  /** Digits outside ASCII are taken like ASCII ones: with ARABIC-INDIC DIGIT THREE and
      FOUR in the class, `?cid=٣٤` yields `٣٤`. */
  lemma NonAsciiDigits(isDecimal: char -> bool)
    requires isDecimal('٣') && isDecimal('٤')
    ensures ExtractPlaceId("?cid=٣٤", isDecimal) == Some("٣٤")
  {
    var url := "?cid=٣٤";
    assert MatchAt(url, 0, isDecimal);
    assert TakeDigits(url[5..], isDecimal) == "٣٤" by {
      assert url[5..] == "٣٤";
      assert url[5..][1..] == "٤";
      assert TakeDigits("٤"[1..], isDecimal) == [];
    }
  }
}
