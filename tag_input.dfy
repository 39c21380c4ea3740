/**
 * The tag editor of the blog editor (frontend/src/components/BlogEditor/
 * TagInput.js): a list of tags, owned by the parent form and replaced
 * through `onChange`, and the text typed so far. A tag is committed on
 * Enter, on a comma and on blur; Backspace in an empty field removes the
 * last tag; each tag has a remove button.
 */
module TagInput {
  import opened Text

  /** `inputValue.trim().toLowerCase()`. */
  function Normalize(input: string): (r: string)
    ensures |r| <= |input|
    ensures Lower(r) == r
  {
    LowerIdempotent(Trim(input));
    Lower(Trim(input))
  }

  predicate Distinct(tags: seq<string>) {
    forall i, j :: 0 <= i < j < |tags| ==> tags[i] != tags[j]
  }

  /** `addTag` on (tags, inputValue): the pair after the commit. */
  function Commit(tags: seq<string>, input: string): (r: (seq<string>, string))
    ensures r == (tags, input) || (r.0 == tags + [Normalize(input)] && r.1 == "")
    ensures Distinct(tags) ==> Distinct(r.0)
  {
    var tag := Normalize(input);
    if tag != "" && tag !in tags then (tags + [tag], "") else (tags, input)
  }

  /** `tags.filter((_, i) => i !== index)`: an index outside the list removes nothing. */
  function RemoveAt(tags: seq<string>, index: int): (r: seq<string>)
    ensures |r| == if 0 <= index < |tags| then |tags| - 1 else |tags|
    ensures forall t :: t in r ==> t in tags
    ensures Distinct(tags) ==> Distinct(r)
  {
    if 0 <= index < |tags| then tags[..index] + tags[index + 1..] else tags
  }

  /** `handleKeyDown` on (tags, inputValue) for the key `e.key`. */
  function KeyDown(tags: seq<string>, input: string, key: string): (r: (seq<string>, string))
    ensures key !in {"Enter", ",", "Backspace"} ==> r == (tags, input)
    ensures r.1 == input || r.1 == ""
    ensures Distinct(tags) ==> Distinct(r.0)
  {
    if key == "Enter" || key == "," then Commit(tags, input)
    else if key == "Backspace" && input == "" && |tags| > 0 then (RemoveAt(tags, |tags| - 1), input)
    else (tags, input)
  }

  /** The component's state: the tag list (through the parent) and the text field. */
  class TagEditor {
    var tags: seq<string>
    var inputValue: string

    /** `useState('')`, with the tags the parent passes in. */
    constructor (initialTags: seq<string>)
      ensures tags == initialTags && inputValue == ""
    {
      tags := initialTags;
      inputValue := "";
    }

    /** The input's `onChange`. */
    method SetInputValue(value: string)
      modifies this
      ensures inputValue == value && tags == old(tags)
    {
      inputValue := value;
    }

    method AddTag()
      modifies this
      ensures (tags, inputValue) == Commit(old(tags), old(inputValue))
      ensures Distinct(old(tags)) ==> Distinct(tags)
    {
      CommitKeepsDistinct(tags, inputValue);
      var tag := Lower(Trim(inputValue));
      if tag != "" && tag !in tags {
        tags := tags + [tag];
        inputValue := "";
      }
    }

    method RemoveTag(index: int)
      modifies this
      ensures tags == RemoveAt(old(tags), index) && inputValue == old(inputValue)
      ensures Distinct(old(tags)) ==> Distinct(tags)
    {
      RemoveKeepsDistinct(tags, index);
      tags := RemoveAt(tags, index);
    }

    method HandleKeyDown(key: string)
      modifies this
      ensures (tags, inputValue) == KeyDown(old(tags), old(inputValue), key)
      ensures Distinct(old(tags)) ==> Distinct(tags)
    {
      if key == "Enter" || key == "," {
        AddTag();
      } else if key == "Backspace" && inputValue == "" && |tags| > 0 {
        RemoveTag(|tags| - 1);
      }
    }

    /** The input's `onBlur`, wired to `addTag`. */
    method Blur()
      modifies this
      ensures (tags, inputValue) == Commit(old(tags), old(inputValue))
      ensures Distinct(old(tags)) ==> Distinct(tags)
    {
      AddTag();
    }
  }

  // ---------------------------------------------------------------------
  // Properties.

  /**
   * A commit appends the normalized text at the end, and clears the field,
   * exactly when that text is non-empty and not yet a tag; otherwise the
   * tags and the field are both left as they were.
   */
  lemma CommitIff(tags: seq<string>, input: string)
    ensures var (after, field) := Commit(tags, input);
            && ((Normalize(input) != "" && Normalize(input) !in tags) <==> after == tags + [Normalize(input)])
            && ((Normalize(input) != "" && Normalize(input) !in tags) ==> field == "")
            && (!(Normalize(input) != "" && Normalize(input) !in tags) <==> after == tags && field == input)
  {
  }

  lemma CommitKeepsDistinct(tags: seq<string>, input: string)
    ensures Distinct(tags) ==> Distinct(Commit(tags, input).0)
  {
    var tag := Normalize(input);
    if Distinct(tags) && tag != "" && tag !in tags {
      var r := tags + [tag];
      forall i, j | 0 <= i < j < |r| ensures r[i] != r[j] {
        if j == |tags| {
          assert r[i] == tags[i];
        }
      }
    }
  }

  /** `removeTag(i)` deletes exactly position i and keeps the others in order. */
  lemma RemoveAtExact(tags: seq<string>, index: int)
    requires 0 <= index < |tags|
    ensures var r := RemoveAt(tags, index);
            && |r| == |tags| - 1
            && (forall j :: 0 <= j < index ==> r[j] == tags[j])
            && (forall j :: index <= j < |r| ==> r[j] == tags[j + 1])
  {
    assert RemoveAt(tags, index) == tags[..index] + tags[index + 1..];
  }

  lemma RemoveKeepsDistinct(tags: seq<string>, index: int)
    ensures Distinct(tags) ==> Distinct(RemoveAt(tags, index))
  {
    if Distinct(tags) && 0 <= index < |tags| {
      var r := RemoveAt(tags, index);
      forall i, j | 0 <= i < j < |r| ensures r[i] != r[j] {
        var i' := if i < index then i else i + 1;
        var j' := if j < index then j else j + 1;
        assert r[i] == tags[i'] && r[j] == tags[j'];
      }
    }
  }

  /** Backspace in an empty field drops the last tag; in any other case it changes nothing. */
  lemma BackspaceDropsLast(tags: seq<string>, input: string)
    ensures var (after, field) := KeyDown(tags, input, "Backspace");
            && field == input
            && (input == "" && |tags| > 0 ==> after == tags[..|tags| - 1])
            && (input != "" || tags == [] ==> after == tags)
  {
  }

  /** Enter, comma and blur all run the same commit; any other key changes nothing. */
  lemma CommitKeys(tags: seq<string>, input: string, key: string)
    ensures KeyDown(tags, input, "Enter") == Commit(tags, input)
    ensures KeyDown(tags, input, ",") == Commit(tags, input)
    ensures key != "Enter" && key != "," && key != "Backspace" ==> KeyDown(tags, input, key) == (tags, input)
  {
  }

  /** Lower-casing never turns a whitespace character into a non-space one or back. */
  lemma LowerKeepsSpace(c: char)
    ensures IsSpace(LowerChar(c)) <==> IsSpace(c)
  {
  }

  lemma TrimOfTrimmed(s: string)
    requires s == "" || (!IsSpace(s[0]) && !IsSpace(s[|s| - 1]))
    ensures Trim(s) == s
  {
  }

  /** A committed tag is its own normal form: normalizing it again changes nothing. */
  lemma NormalizeIdempotent(input: string)
    ensures Normalize(Normalize(input)) == Normalize(input)
  {
    var t := Trim(input);
    var n := Lower(t);
    TrimIsSlice(input);
    assert n == "" || (!IsSpace(n[0]) && !IsSpace(n[|n| - 1])) by {
      if n != "" {
        assert n[0] == LowerChar(t[0]) && n[|n| - 1] == LowerChar(t[|t| - 1]);
        LowerKeepsSpace(t[0]);
        LowerKeepsSpace(t[|t| - 1]);
      }
    }
    TrimOfTrimmed(n);
    LowerIdempotent(t);
  }
}
