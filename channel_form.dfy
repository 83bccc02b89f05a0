/** The add/edit dialog of components/data-display/ChannelForm.tsx: its field state, the tag
    chips with their suggestion list, and the record it submits. */
module ChannelForm {
  import opened Wrappers
  import opened Seqs
  import opened Text
  import opened Channels
  import opened ChannelStore

  /** The `formData` state: every field as the inputs hold it. */
  datatype FormData = FormData(link: string, name: string, tags: seq<string>, note: string, favourite: bool)

  const EmptyForm: FormData := FormData("", "", [], "", false)

  /** The edit initialisation: the channel's fields, with an absent name or note shown as
      the empty string and an absent favourite flag as unchecked. */
  function FormFromChannel(c: Channel): (f: FormData)
    ensures f.link == c.link && f.tags == c.tags
    ensures c.name.Some? ==> f.name == c.name.value
    ensures c.name.None? ==> f.name == ""
    ensures c.note.Some? ==> f.note == c.note.value
    ensures c.note.None? ==> f.note == ""
    ensures f.favourite <==> c.favourite == Some(true)
  {
    FormData(c.link, c.name.GetOr(""), c.tags, c.note.GetOr(""), c.favourite.GetOr(false))
  }

  /** `s.trim() || undefined`: the trimmed text, or nothing when only white space was typed. */
  function OptionalText(s: string): (r: Option<string>)
    ensures r.None? <==> forall k :: 0 <= k < |s| ==> IsSpace(s[k])
    ensures r.Some? ==> r.value == Trim(s) && r.value != ""
  {
    var t := Trim(s);
    if t == "" then None else Some(t)
  }

  /** `handleSubmit`: nothing is saved when the trimmed link is empty; otherwise the record
      carries the trimmed link, the optional trimmed name and note, and the tags and favourite
      flag as they are. */
  function Submission(f: FormData): (r: Option<ChannelData>)
    ensures r.None? <==> Trim(f.link) == ""
    ensures r.Some? ==> r.value.link == Trim(f.link) && r.value.link != ""
    ensures r.Some? ==> r.value.name == OptionalText(f.name) && r.value.note == OptionalText(f.note)
    ensures r.Some? ==> r.value.tags == f.tags && r.value.favourite == Some(f.favourite)
  {
    var link := Trim(f.link);
    if link == "" then None
    else Some(ChannelData(link, OptionalText(f.name), f.tags, OptionalText(f.note), Some(f.favourite)))
  }

  /** The shape of every record the form submits: trimmed non-empty link, name and note absent
      or trimmed and non-empty, favourite flag present. */
  predicate Normalised(d: ChannelData) {
    d.link != "" && Trim(d.link) == d.link &&
    (d.name.Some? ==> d.name.value != "" && Trim(d.name.value) == d.name.value) &&
    (d.note.Some? ==> d.note.value != "" && Trim(d.note.value) == d.note.value) &&
    d.favourite.Some?
  }

  /** What the form submits is normalised. */
  lemma SubmissionNormalised(f: FormData)
    requires Submission(f).Some?
    ensures Normalised(Submission(f).value)
  {
    TrimIdempotent(f.link);
    TrimIdempotent(f.name);
    TrimIdempotent(f.note);
  }

  /** Opening a normalised channel for editing and submitting it unchanged saves the same
      record. */
  lemma EditRoundTrip(c: Channel)
    requires Normalised(Data(c))
    ensures Submission(FormFromChannel(c)) == Some(Data(c))
  {
    var f := FormFromChannel(c);
    if c.name.Some? {
      assert OptionalText(f.name) == c.name by {
        assert Trim(f.name) == f.name;
      }
    } else {
      assert Trim("") == "";
    }
    if c.note.Some? {
      assert OptionalText(f.note) == c.note by {
        assert Trim(f.note) == f.note;
      }
    } else {
      assert Trim("") == "";
    }
  }

  /** Saving, reopening the saved channel and saving again changes nothing: submission is
      idempotent through the edit dialog. */
  lemma ResubmitUnchanged(f: FormData, id: string)
    requires Submission(f).Some?
    ensures Submission(FormFromChannel(WithId(Submission(f).value, id))) == Submission(f)
  {
    var d := Submission(f).value;
    SubmissionNormalised(f);
    EditRoundTrip(WithId(d, id));
  }

  /** The condition of `handleAddTag`: the trimmed tag is non-empty and not yet chosen. */
  predicate AddAccepted(tag: string, chosen: seq<string>) {
    Trim(tag) != "" && Trim(tag) !in chosen
  }

  /** Whether the suggestion list offers existing tag `t` for the typed `input`: it
      contains the input case-insensitively and is not chosen yet. */
  predicate Offered(t: string, input: string, chosen: seq<string>) {
    Contains(Lower(t), Lower(input)) && t !in chosen
  }

  /** The suggestion effect: empty for an empty input, otherwise the offered existing tags in
      their original order, each as often as it is listed. */
  function Suggestions(input: string, existing: seq<string>, chosen: seq<string>): (r: seq<string>)
    ensures input == "" ==> r == []
    ensures IsSubsequence(r, existing)
    ensures input != "" ==> forall t :: multiset(r)[t] == if Offered(t, input, chosen) then multiset(existing)[t] else 0
  {
    if input == "" then []
    else
      var offered := (t: string) => Offered(t, input, chosen);
      FilterIsSubsequence(existing, offered);
      FilterMultiset(existing, offered);
      Filter(existing, offered)
  }

  /** For a non-empty input the suggestions are exactly the offered existing tags. */
  lemma SuggestionsAreOffered(input: string, existing: seq<string>, chosen: seq<string>, t: string)
    requires input != ""
    ensures t in Suggestions(input, existing, chosen) <==> t in existing && Offered(t, input, chosen)
  {
    FilterMembers(existing, (t: string) => Offered(t, input, chosen));
    var r := Suggestions(input, existing, chosen);
    if t in r {
      var k :| 0 <= k < |r| && r[k] == t;
    }
    if t in existing && Offered(t, input, chosen) {
      var i :| 0 <= i < |existing| && existing[i] == t;
    }
  }

  /** The "Create" button: the trimmed input is non-empty, not an existing tag, and not
      chosen. */
  predicate ShowCreateOption(input: string, existing: seq<string>, chosen: seq<string>) {
    var t := Trim(input);
    t != "" && t !in existing && t !in chosen
  }

  /** Pressing "Create" adds the trimmed input. */
  lemma CreateOptionIsAccepted(input: string, existing: seq<string>, chosen: seq<string>)
    requires ShowCreateOption(input, existing, chosen)
    ensures AddAccepted(Trim(input), chosen)
  {
    TrimIdempotent(input);
  }

  /** Every suggestion is a non-empty tag not chosen yet, so clicking one that has no
      surrounding white space adds it. */
  lemma SuggestionIsAccepted(input: string, existing: seq<string>, chosen: seq<string>, t: string)
    requires t in Suggestions(input, existing, chosen)
    requires Trim(t) == t
    ensures AddAccepted(t, chosen)
  {
    SuggestionsAreOffered(input, existing, chosen, t);
    ContainsAt(Lower(t), Lower(input));
    var i :| 0 <= i <= |Lower(t)| && Lower(input) <= Lower(t)[i..];
    assert |Lower(input)| > 0;
  }

  /** The dialog's state while it is open. `existingTags` is the prop the page passes in. */
  class Form {
    var formData: FormData
    var newTag: string
    var filteredTags: seq<string>
    const existingTags: seq<string>

    /** The suggestion list is the one the effect computes for the current input. */
    ghost predicate SuggestionsCurrent()
      reads this
    {
      filteredTags == Suggestions(newTag, existingTags, formData.tags)
    }

    /** A fresh dialog, filled from `channel` when one is being edited. */
    constructor (channel: Option<Channel>, existing: seq<string>)
      ensures channel.Some? ==> formData == FormFromChannel(channel.value)
      ensures channel.None? ==> formData == EmptyForm
      ensures newTag == "" && filteredTags == [] && existingTags == existing
      ensures SuggestionsCurrent()
    {
      formData := if channel.Some? then FormFromChannel(channel.value) else EmptyForm;
      newTag := "";
      filteredTags := [];
      existingTags := existing;
    }

    /** Typing into the tag input, followed by the suggestion effect. */
    method SetNewTag(value: string)
      modifies this`newTag, this`filteredTags
      ensures newTag == value
      ensures SuggestionsCurrent()
    {
      newTag := value;
      filteredTags := Suggestions(newTag, existingTags, formData.tags);
    }

    /** `handleAddTag(tag)`, followed by the suggestion effect: the trimmed tag is appended and
        the input cleared only when it is accepted; otherwise tags and input stay. */
    method AddTag(tag: string)
      modifies this`formData, this`newTag, this`filteredTags
      ensures AddAccepted(tag, old(formData.tags)) ==>
        formData == old(formData).(tags := old(formData.tags) + [Trim(tag)]) && newTag == ""
      ensures !AddAccepted(tag, old(formData.tags)) ==> formData == old(formData) && newTag == old(newTag)
      ensures NoDup(old(formData.tags)) ==> NoDup(formData.tags)
      ensures SuggestionsCurrent()
    {
      var trimmed := Trim(tag);
      if trimmed != "" && trimmed !in formData.tags {
        if NoDup(formData.tags) {
          NoDupSnoc(formData.tags, trimmed);
        }
        formData := formData.(tags := formData.tags + [trimmed]);
        newTag := "";
      }
      filteredTags := Suggestions(newTag, existingTags, formData.tags);
    }

    /** The Enter key in the tag input. A non-blank input is added as by `handleAddTag` and
        the key's default action is cancelled. On a blank input the default action goes ahead:
        the browser submits the form when the link field passes its validation (`linkValid`,
        as for `Submit`), and `saved` is what `handleSubmit` then hands to `onSave`. */
    method PressEnter(linkValid: bool) returns (saved: Option<ChannelData>)
      modifies this`formData, this`newTag, this`filteredTags
      ensures Trim(old(newTag)) != "" ==> saved == None
      ensures Trim(old(newTag)) == "" && !linkValid ==> saved == None
      ensures Trim(old(newTag)) == "" && linkValid ==> saved == Submission(old(formData))
      ensures AddAccepted(old(newTag), old(formData.tags)) ==>
        formData == old(formData).(tags := old(formData.tags) + [Trim(old(newTag))]) && newTag == ""
      ensures !AddAccepted(old(newTag), old(formData.tags)) ==> formData == old(formData) && newTag == old(newTag)
      ensures SuggestionsCurrent()
    {
      if Trim(newTag) != "" {
        AddTrimmedInput();
        saved := None;
      } else {
        saved := SubmitFromBlankInput(linkValid);
      }
    }

    /** Enter on a blank input: the suggestion effect runs and the browser submits the form,
        subject to the link field's validation. */
    method SubmitFromBlankInput(linkValid: bool) returns (saved: Option<ChannelData>)
      requires Trim(newTag) == ""
      modifies this`filteredTags
      ensures !linkValid ==> saved == None
      ensures linkValid ==> saved == Submission(formData)
      ensures !AddAccepted(newTag, formData.tags)
      ensures SuggestionsCurrent()
    {
      filteredTags := Suggestions(newTag, existingTags, formData.tags);
      saved := Submit(linkValid);
    }

    /** `handleAddTag(newTag.trim())` for a non-blank input: the same outcome as adding the
        untrimmed input, since trimming twice is trimming once. */
    method AddTrimmedInput()
      requires Trim(newTag) != ""
      modifies this`formData, this`newTag, this`filteredTags
      ensures AddAccepted(old(newTag), old(formData.tags)) ==>
        formData == old(formData).(tags := old(formData.tags) + [Trim(old(newTag))]) && newTag == ""
      ensures !AddAccepted(old(newTag), old(formData.tags)) ==> formData == old(formData) && newTag == old(newTag)
      ensures SuggestionsCurrent()
    {
      var trimmed := Trim(newTag);
      TrimIdempotent(newTag);
      assert AddAccepted(trimmed, formData.tags) == AddAccepted(newTag, formData.tags);
      AddTag(trimmed);
    }

    /** `handleRemoveTag(tag)`, followed by the suggestion effect. */
    method RemoveTag(tag: string)
      modifies this`formData, this`filteredTags
      ensures formData == old(formData).(tags := DropTag(old(formData.tags), tag))
      ensures tag !in formData.tags
      ensures forall k :: 0 <= k < |old(formData.tags)| && old(formData.tags)[k] != tag ==>
        old(formData.tags)[k] in formData.tags
      ensures SuggestionsCurrent()
    {
      formData := formData.(tags := DropTag(formData.tags, tag));
      filteredTags := Suggestions(newTag, existingTags, formData.tags);
    }

    /** Submitting the dialog: the record handed to `onSave`, if any. The link input is a
        required `type="url"` field, so the browser fires the submit event only when its
        constraint validation accepts the link; `linkValid` is that verdict, and without it
        `handleSubmit` never runs. */
    method Submit(linkValid: bool) returns (saved: Option<ChannelData>)
      ensures !linkValid ==> saved == None
      ensures linkValid ==> saved == Submission(formData)
      ensures saved.Some? ==> Normalised(saved.value)
    {
      if linkValid {
        saved := Submission(formData);
        if saved.Some? {
          SubmissionNormalised(formData);
        }
      } else {
        saved := None;
      }
    }
  }
}
