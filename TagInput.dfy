/** The tag-list editor (src/components/ui/TagInput.tsx): a list of tags
    (the `value` the parent passes and replaces through `onChange`) and the
    text being typed. */
module TagInput {
  import opened Wrappers
  import opened JsText

  const DefaultMaxTags: int := 5
  const DefaultMaxLength: int := 30

  predicate NoDuplicates(tags: seq<string>)
  {
    forall i, j :: 0 <= i < j < |tags| ==> tags[i] != tags[j]
  }

  /** The guard of `addTag`, on the trimmed input. */
  predicate CanAdd(tags: seq<string>, trimmed: string, maxTags: int, maxLength: int)
  {
    trimmed != "" && trimmed !in tags && |tags| < maxTags && Utf16Length(trimmed) <= maxLength
  }

  /** Adding keeps the list within `maxTags` and free of duplicates. */
  lemma AddKeepsBoundAndNoDuplicates(tags: seq<string>, trimmed: string, maxTags: int, maxLength: int)
    requires CanAdd(tags, trimmed, maxTags, maxLength)
    ensures |tags + [trimmed]| <= maxTags
    ensures NoDuplicates(tags) ==> NoDuplicates(tags + [trimmed])
  {
  }

  /** `value.filter((_, i) => i !== index)`. */
  function Without(tags: seq<string>, index: int): (r: seq<string>)
    ensures 0 <= index < |tags| ==> r == tags[..index] + tags[index + 1..]
    ensures !(0 <= index < |tags|) ==> r == tags
  {
    if tags == [] then []
    else
      var init := tags[..|tags| - 1];
      var last := tags[|tags| - 1];
      var rest := Without(init, index);
      if index == |tags| - 1 then rest
      else
        assert 0 <= index < |init| ==> init[..index] + init[index + 1..] + [last] == tags[..index] + tags[index + 1..];
        rest + [last]
  }

  /** Removing one tag keeps the others in order and keeps them distinct. */
  lemma WithoutKeepsOthers(tags: seq<string>, index: int)
    requires 0 <= index < |tags|
    ensures |Without(tags, index)| == |tags| - 1
    ensures forall k :: 0 <= k < index ==> Without(tags, index)[k] == tags[k]
    ensures forall k :: index <= k < |tags| - 1 ==> Without(tags, index)[k] == tags[k + 1]
    ensures NoDuplicates(tags) ==> NoDuplicates(Without(tags, index))
  {
    var r := Without(tags, index);
    assert forall k :: index <= k < |tags| - 1 ==> r[k] == tags[k + 1];
  }

  class TagInputState {
    var tags: seq<string>
    var input: string
    const maxTags: int
    const maxLength: int

    /** A fresh editor over `value`; absent limits take their defaults. */
    constructor (value: seq<string>, maxTags: Option<int>, maxLength: Option<int>)
      ensures tags == value && input == ""
      ensures this.maxTags == maxTags.GetOr(DefaultMaxTags) && this.maxLength == maxLength.GetOr(DefaultMaxLength)
    {
      tags := value;
      input := "";
      this.maxTags := maxTags.GetOr(DefaultMaxTags);
      this.maxLength := maxLength.GetOr(DefaultMaxLength);
    }

    /** Typing into the field. */
    method SetInput(text: string)
      modifies this
      ensures input == text && tags == old(tags)
    {
      input := text;
    }

    /** `addTag`: append the trimmed input and clear the field when the
        guard holds; otherwise change nothing. */
    method AddTag()
      modifies this
      ensures var trimmed := Trim(old(input));
        if CanAdd(old(tags), trimmed, maxTags, maxLength)
        then tags == old(tags) + [trimmed] && input == ""
        else tags == old(tags) && input == old(input)
      ensures |old(tags)| <= maxTags ==> |tags| <= maxTags
      ensures NoDuplicates(old(tags)) ==> NoDuplicates(tags)
    {
      var trimmed := Trim(input);
      if CanAdd(tags, trimmed, maxTags, maxLength) {
        AddKeepsBoundAndNoDuplicates(tags, trimmed, maxTags, maxLength);
        tags := tags + [trimmed];
        input := "";
      }
    }

    /** `removeTag`. */
    method RemoveTag(index: int)
      modifies this
      ensures tags == Without(old(tags), index) && input == old(input)
      ensures NoDuplicates(old(tags)) ==> NoDuplicates(tags)
    {
      if 0 <= index < |tags| {
        WithoutKeepsOthers(tags, index);
      }
      tags := Without(tags, index);
    }

    /** `handleKeyDown`: Enter adds; Backspace on an empty field removes the
        last tag; any other key changes nothing. */
    method HandleKeyDown(key: string)
      modifies this
      ensures key == "Enter" ==>
        var trimmed := Trim(old(input));
        if CanAdd(old(tags), trimmed, maxTags, maxLength)
        then tags == old(tags) + [trimmed] && input == ""
        else tags == old(tags) && input == old(input)
      ensures key == "Backspace" && old(input) == "" && |old(tags)| > 0 ==>
        tags == old(tags)[..|old(tags)| - 1] && input == old(input)
      ensures key != "Enter" && !(key == "Backspace" && old(input) == "" && |old(tags)| > 0) ==>
        tags == old(tags) && input == old(input)
    {
      if key == "Enter" {
        AddTag();
      } else if key == "Backspace" && input == "" && |tags| > 0 {
        RemoveTag(|tags| - 1);
      }
    }
  }
}
