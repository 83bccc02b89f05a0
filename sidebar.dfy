/** The tag sidebar of components/layout/Sidebar.tsx: its create and rename inputs, the
    guards it applies before calling the store, and the count it shows next to each tag. */
module Sidebar {
  import opened Wrappers
  import opened Text
  import opened Channels
  import opened TagIndex
  import opened ChannelStore

  /** The guard of `handleCreateTag`: the trimmed name is non-empty and not a listed tag.
      The check button is disabled exactly when it fails. */
  predicate CreateAccepted(input: string, tags: seq<string>) {
    Trim(input) != "" && Trim(input) !in tags
  }

  /** The guard of `handleRenameTag(oldTag)`: the trimmed name is non-empty, differs from
      `oldTag` and is not a listed tag. The check button is disabled exactly when it fails. */
  predicate RenameAccepted(input: string, oldTag: string, tags: seq<string>) {
    Trim(input) != "" && Trim(input) != oldTag && Trim(input) !in tags
  }

  /** A rename the sidebar hands to the store: `onRenameTag(oldTag, newTag)`. */
  datatype RenameRequest = RenameRequest(oldTag: string, newTag: string)

  /** `tagCounts[tag] || 0`. */
  function DisplayedCount(counts: map<string, nat>, tag: string): (n: nat)
    ensures tag in counts ==> n == counts[tag]
    ensures tag !in counts ==> n == 0
  {
    if tag in counts then counts[tag] else 0
  }

  /** Beside every tag, and for any other name, the sidebar shows how many times the
      channels use it. */
  lemma DisplayedCountIsOccurrences(counts: map<string, nat>, cs: seq<Channel>, standalone: seq<string>, tag: string)
    requires IsTagCounts(counts, cs, standalone)
    ensures DisplayedCount(counts, tag) == Occurrences(cs, tag)
  {
    if tag !in counts {
      assert tag !in UsedTags(cs);
    }
  }

  /** A name the create guard lets through is appended to the standalone list. */
  lemma CreateGuardAppends(input: string, tags: seq<string>, cs: seq<Channel>, standalone: seq<string>)
    requires forall t :: t in tags <==> t in AllTagSet(cs, standalone)
    requires CreateAccepted(input, tags)
    ensures CreatedStandalone(cs, standalone, Trim(input)) == standalone + [Trim(input)]
  {
  }

  /** Under the rename guard the store's rename keeps it coherent, drops the old name, moves
      every occurrence to the new one and merges no two tags. */
  lemma RenameGuardIsSafe(input: string, oldTag: string, tags: seq<string>, cs: seq<Channel>, standalone: seq<string>)
    requires forall t :: t in tags <==> t in AllTagSet(cs, standalone)
    requires RenameAccepted(input, oldTag, tags)
    requires Coherent(cs, standalone)
    ensures var newTag := Trim(input);
      Coherent(RenameInChannels(cs, oldTag, newTag), RenameTags(standalone, oldTag, newTag)) &&
      Occurrences(RenameInChannels(cs, oldTag, newTag), newTag) == Occurrences(cs, oldTag) &&
      Occurrences(RenameInChannels(cs, oldTag, newTag), oldTag) == 0
  {
    var newTag := Trim(input);
    RenamePreservesCoherence(cs, standalone, oldTag, newTag);
    RenameMovesOccurrences(cs, oldTag, newTag);
  }

  /** The sidebar's own input state. */
  class SidebarState {
    var isCreatingTag: bool
    var newTagName: string
    var editingTag: Option<string>
    var editTagName: string

    constructor ()
      ensures !isCreatingTag && newTagName == "" && editingTag == None && editTagName == ""
    {
      isCreatingTag := false;
      newTagName := "";
      editingTag := None;
      editTagName := "";
    }

    /** The "Create Tag" button. */
    method OpenCreate()
      modifies this`isCreatingTag
      ensures isCreatingTag
    {
      isCreatingTag := true;
    }

    /** The cancel button of the create input. */
    method CancelCreate()
      modifies this`isCreatingTag, this`newTagName
      ensures !isCreatingTag && newTagName == ""
    {
      isCreatingTag := false;
      newTagName := "";
    }

    /** `handleCreateTag`: when the guard passes, the trimmed name is handed to the store and
        the input closes; otherwise nothing happens. */
    method CreateTag(tags: seq<string>) returns (created: Option<string>)
      modifies this`isCreatingTag, this`newTagName
      ensures created.Some? <==> CreateAccepted(old(newTagName), tags)
      ensures created.Some? ==> created.value == Trim(old(newTagName)) && newTagName == "" && !isCreatingTag
      ensures created.None? ==> newTagName == old(newTagName) && isCreatingTag == old(isCreatingTag)
    {
      var name := Trim(newTagName);
      if name != "" && name !in tags {
        created := Some(name);
        newTagName := "";
        isCreatingTag := false;
      } else {
        created := None;
      }
    }

    /** `startEditing(tag)`: the rename input opens on `tag`, prefilled with it. */
    method StartEditing(tag: string)
      modifies this`editingTag, this`editTagName
      ensures editingTag == Some(tag) && editTagName == tag
    {
      editingTag := Some(tag);
      editTagName := tag;
    }

    /** The cancel button of the rename input. */
    method CancelEditing()
      modifies this`editingTag, this`editTagName
      ensures editingTag == None && editTagName == ""
    {
      editingTag := None;
      editTagName := "";
    }

    /** `handleRenameTag(oldTag)`: when the guard passes, the rename is handed to the store;
        accepted or not, the rename input closes. */
    method RenameTag(oldTag: string, tags: seq<string>) returns (request: Option<RenameRequest>)
      modifies this`editingTag, this`editTagName
      ensures request.Some? <==> RenameAccepted(old(editTagName), oldTag, tags)
      ensures request.Some? ==> request.value == RenameRequest(oldTag, Trim(old(editTagName)))
      ensures editingTag == None && editTagName == ""
    {
      var name := Trim(editTagName);
      if name != "" && name != oldTag && name !in tags {
        request := Some(RenameRequest(oldTag, name));
      } else {
        request := None;
      }
      editingTag := None;
      editTagName := "";
    }
  }

  /** Opening the rename input on a tag and confirming without typing never renames. */
  lemma UneditedRenameRefused(tag: string, tags: seq<string>)
    requires Trim(tag) == tag
    ensures !RenameAccepted(tag, tag, tags)
  {
  }
}
