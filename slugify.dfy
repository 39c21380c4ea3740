/**
 * `truncateText` of frontend/src/utils/slugify.js: clamps a text to a
 * number of characters, trims what is kept and marks the cut with "...".
 * The text may be missing (null or undefined), which is `None` here.
 */
module Slugify {
  import opened Wrappers
  import opened Text

  const DefaultLength: int := 160
  const Ellipsis: string := "..."

  /** `text.substring(0, length)`: a negative end counts as 0, one past the end as the length. */
  function Substring(text: string, length: int): (r: string)
    ensures r == text[..if length < 0 then 0 else if length > |text| then |text| else length]
  {
    if length < 0 then "" else if length > |text| then text else text[..length]
  }

  /** `truncateText(text, length)`. */
  function TruncateText(text: Option<string>, length: int): (r: Option<string>)
    ensures r.None? <==> text.None?
    ensures r != text ==> && Truthy(text) && |text.value| > length
                          && |Ellipsis| <= |r.value| <= (if length < 0 then 0 else length) + |Ellipsis|
                          && r.value[|r.value| - |Ellipsis|..] == Ellipsis
  {
    if !Truthy(text) || |text.value| <= length then text
    else Some(Trim(Substring(text.value, length)) + Ellipsis)
  }

  /** `truncateText(text)` with the default length. */
  function TruncateTextDefault(text: Option<string>): Option<string> {
    TruncateText(text, DefaultLength)
  }

  // ---------------------------------------------------------------------
  // Properties.

  /** A missing or empty text, or one no longer than the limit, comes back as it was. */
  lemma ShortTextUnchanged(text: Option<string>, length: int)
    requires !Truthy(text) || |text.value| <= length
    ensures TruncateText(text, length) == text
  {
  }

  /**
   * A longer text comes back as its first `length` characters (none for a
   * negative length), trimmed, followed by "...": so it ends with "..." and
   * is at most `length` + 3 characters long.
   */
  lemma LongTextTruncated(text: string, length: int)
    requires text != "" && |text| > length
    ensures var r := TruncateText(Some(text), length);
            var limit := if length < 0 then 0 else length;
            && r == Some(Trim(text[..limit]) + Ellipsis)
            && |r.value| <= limit + 3
            && r.value[|r.value| - 3..] == Ellipsis
  {
    var limit := if length < 0 then 0 else length;
    var kept := Trim(text[..limit]);
    assert Substring(text, length) == text[..limit];
    assert TruncateText(Some(text), length) == Some(kept + Ellipsis);
    TrimIsSlice(text[..limit]);
    EndsWithSuffix(kept, Ellipsis);
  }

  lemma EndsWithSuffix(a: string, b: string)
    ensures (a + b)[|a + b| - |b|..] == b
  {
  }

  /**
   * What is kept of a truncated text is a contiguous piece of its first
   * `limit` characters, with only whitespace cut off before and after it.
   */
  lemma TruncationKeepsSlice(text: string, limit: nat)
    requires limit <= |text|
    ensures var kept := Trim(text[..limit]);
            var i := limit - |TrimStart(text[..limit])|;
            && i + |kept| <= limit
            && kept == text[i..i + |kept|]
            && AllSpace(text[..i]) && AllSpace(text[i + |kept|..limit])
  {
    TrimIsSlice(text[..limit]);
    PrefixSlices(text, limit, limit - |TrimStart(text[..limit])|, limit - |TrimStart(text[..limit])| + |Trim(text[..limit])|);
  }

  /** The slices of a prefix of `text` are the same slices of `text`. */
  lemma PrefixSlices(text: string, limit: nat, i: nat, j: nat)
    requires i <= j <= limit <= |text|
    ensures text[..limit][..i] == text[..i]
    ensures text[..limit][i..j] == text[i..j]
    ensures text[..limit][j..] == text[j..limit]
  {
  }

  /** The default limit is 160 characters. */
  lemma DefaultLimit(text: Option<string>)
    ensures TruncateTextDefault(text) == TruncateText(text, 160)
    ensures text.Some? && |text.value| <= 160 ==> TruncateTextDefault(text) == text
  {
  }
}
