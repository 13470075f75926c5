/** Display helpers: age pass-through, truncation with an ellipsis, and keyword highlighting. */
module Formatters {
  import opened Wrappers
  import opened Text

  /** Ages arrive already formatted by the backend and are shown as they are. */
  function FormatAge(age: string): (r: string)
    ensures r == age
  {
    age
  }

  /** `str.length <= maxLength ? str : str.slice(0, maxLength - 3) + '...'`. */
  function Truncate(s: string, maxLength: int): (r: string)
    ensures |s| <= maxLength ==> r == s
    ensures |s| > maxLength ==> EndsWith(r, "...") && StartsWith(s, r[..|r| - 3])
    ensures |s| > maxLength >= 3 ==> |r| == maxLength && r == s[..maxLength - 3] + "..."
  {
    if |s| <= maxLength then s
    else
      var kept := Slice(s, 0, maxLength - 3);
      assert kept == s[..|kept|];
      var r := kept + "...";
      assert r[..|r| - 3] == kept;
      r
  }

  /** With a limit of at least 3 the result never exceeds the limit, and truncating again changes nothing. */
  lemma TruncateFits(s: string, maxLength: int)
    requires maxLength >= 3
    ensures |Truncate(s, maxLength)| <= maxLength
    ensures Truncate(Truncate(s, maxLength), maxLength) == Truncate(s, maxLength)
  {
  }

  /**
   * With a limit below 3 a string longer than the limit comes back longer
   * than the limit: the negative `slice` end counts from the end of the string.
   */
  lemma TruncateOverrunsSmallLimit(s: string, maxLength: int)
    requires 0 <= maxLength < 3 && |s| > maxLength
    ensures |Truncate(s, maxLength)| > maxLength
  {
    var end := |s| + maxLength - 3;
    if end > 0 {
      assert Slice(s, 0, maxLength - 3) == s[..end];
    }
  }

  /** The three parts of a highlighted text. */
  datatype Highlight = Highlight(before: string, matched: string, after: string)

  /**
   * Splits `text` around the first case-insensitive occurrence of
   * `keyword`; `None` for an empty keyword or when it does not occur.
   */
  function HighlightMatch(text: string, keyword: string): (r: Option<Highlight>)
    ensures r.None? <==> keyword == "" || !ContainsIgnoringCase(text, keyword)
    ensures r.Some? ==> r.value.before + r.value.matched + r.value.after == text
    ensures r.Some? ==> Lower(r.value.matched) == Lower(keyword) && |r.value.matched| == |keyword|
    ensures r.Some? ==> OccursAt(Lower(text), Lower(keyword), |r.value.before|)
    ensures r.Some? ==> forall j :: 0 <= j < |r.value.before| ==> !OccursAt(Lower(text), Lower(keyword), j)
  {
    if keyword == "" then None
    else
      var index := IndexOf(Lower(text), Lower(keyword));
      if index == -1 then None
      else
        var end := index + |keyword|;
        assert Slice(text, 0, index) == text[..index];
        assert Slice(text, index, end) == text[index..end];
        assert SliceFrom(text, end) == text[end..];
        LowerSlice(text, index, end);
        assert text[..index] + text[index..end] + text[end..] == text;
        Some(Highlight(Slice(text, 0, index), Slice(text, index, end), SliceFrom(text, end)))
  }

  /** A keyword placed after a prefix free of it is highlighted exactly there. */
  lemma HighlightFindsFirstOccurrence(prefix: string, keyword: string, suffix: string)
    requires keyword != ""
    requires forall j :: 0 <= j < |prefix| ==> !OccursAt(Lower(prefix + keyword + suffix), Lower(keyword), j)
    ensures HighlightMatch(prefix + keyword + suffix, keyword) == Some(Highlight(prefix, keyword, suffix))
  {
    var text := prefix + keyword + suffix;
    assert text[|prefix|..|prefix| + |keyword|] == keyword;
    LowerSlice(text, |prefix|, |prefix| + |keyword|);
    assert OccursAt(Lower(text), Lower(keyword), |prefix|);
    ContainsWitness(Lower(text), Lower(keyword), |prefix|);
    var h := HighlightMatch(text, keyword).value;
    assert |h.before| == |prefix|;
    assert h.before == text[..|prefix|];
    assert text[..|prefix|] == prefix;
    assert h.matched == text[|prefix|..|prefix| + |keyword|];
    assert h.after == text[|prefix| + |keyword|..];
  }
}
