/** The channel/tag store held by the `Home` component of app/page.tsx: its three pieces of
    state, the pure updaters its handlers pass to the state setters, the consistency they keep,
    and the store itself as a class whose methods are the handlers. */
module ChannelStore {
  import opened Wrappers
  import opened Seqs
  import opened Sorting
  import opened Channels
  import opened TagIndex
  import opened Persistence

  // ---------------------------------------------------------------------------
  // The state updaters

  /** `prev.filter(ch => ch.id !== id)`. */
  function WithoutChannel(cs: seq<Channel>, id: string): (r: seq<Channel>)
    ensures IsSubsequence(r, cs)
    ensures forall k :: 0 <= k < |r| ==> r[k] in cs && r[k].id != id
    ensures forall k :: 0 <= k < |cs| && cs[k].id != id ==> cs[k] in r
    ensures forall c :: multiset(r)[c] == if c.id == id then 0 else multiset(cs)[c]
  {
    var keep := (c: Channel) => c.id != id;
    FilterIsSubsequence(cs, keep);
    FilterMultiset(cs, keep);
    FilterMembers(cs, keep);
    Filter(cs, keep)
  }

  /** The channel list after a save. While editing, every channel whose id is the edited
      channel's is replaced by the saved record under that id; otherwise the record is
      appended under `newId`. */
  function SavedChannels(cs: seq<Channel>, data: ChannelData, editing: Option<Channel>, newId: string)
    : (r: seq<Channel>)
    ensures editing.Some? ==> |r| == |cs| && forall k :: 0 <= k < |cs| ==>
      r[k] == if cs[k].id == editing.value.id then WithId(data, editing.value.id) else cs[k]
    ensures editing.None? ==> r == cs + [WithId(data, newId)]
  {
    match editing
    case Some(ch) => Map(cs, (c: Channel) => if c.id == ch.id then WithId(data, ch.id) else c)
    case None => cs + [WithId(data, newId)]
  }

  /** `prev.filter(tag => !usedTags.has(tag))`. */
  function Prune(standalone: seq<string>, used: set<string>): (r: seq<string>)
    ensures IsSubsequence(r, standalone)
    ensures forall k :: 0 <= k < |r| ==> r[k] in standalone && r[k] !in used
    ensures forall k :: 0 <= k < |standalone| && standalone[k] !in used ==> standalone[k] in r
    ensures forall x :: multiset(r)[x] == if x in used then 0 else multiset(standalone)[x]
  {
    var keep := (t: string) => t !in used;
    FilterIsSubsequence(standalone, keep);
    FilterMultiset(standalone, keep);
    FilterMembers(standalone, keep);
    Filter(standalone, keep)
  }

  /** The standalone list after `handleCreateTag(name)`: `name` is appended unless it is
      already one of `allTags`. */
  function CreatedStandalone(cs: seq<Channel>, standalone: seq<string>, name: string): (r: seq<string>)
    ensures name in AllTagSet(cs, standalone) ==> r == standalone
    ensures name !in AllTagSet(cs, standalone) ==> r == standalone + [name]
    ensures AllTagSet(cs, r) == AllTagSet(cs, standalone) + {name}
  {
    if name in AllTagSet(cs, standalone) then standalone
    else
      ElemsSnoc(standalone, name);
      standalone + [name]
  }

  /** One tag under `handleRenameTag(oldTag, newTag)`. */
  function Renamed(tag: string, oldTag: string, newTag: string): string {
    if tag == oldTag then newTag else tag
  }

  /** `tags.map(tag => tag === oldTag ? newTag : tag)`. */
  function RenameTags(tags: seq<string>, oldTag: string, newTag: string): (r: seq<string>)
    ensures |r| == |tags|
    ensures forall i :: 0 <= i < |tags| ==> r[i] == Renamed(tags[i], oldTag, newTag)
  {
    Map(tags, (t: string) => Renamed(t, oldTag, newTag))
  }

  /** Every channel with its tags renamed; nothing else about any channel changes. */
  function RenameInChannels(cs: seq<Channel>, oldTag: string, newTag: string): (r: seq<Channel>)
    ensures |r| == |cs|
    ensures forall k :: 0 <= k < |cs| ==> r[k] == cs[k].(tags := RenameTags(cs[k].tags, oldTag, newTag))
  {
    Map(cs, (c: Channel) => c.(tags := RenameTags(c.tags, oldTag, newTag)))
  }

  /** `tags.filter(tag => tag !== t)`. */
  function DropTag(tags: seq<string>, t: string): (r: seq<string>)
    ensures IsSubsequence(r, tags)
    ensures forall k :: 0 <= k < |r| ==> r[k] in tags
    ensures t !in r
    ensures forall k :: 0 <= k < |tags| && tags[k] != t ==> tags[k] in r
    ensures forall x :: multiset(r)[x] == if x == t then 0 else multiset(tags)[x]
  {
    var keep := (x: string) => x != t;
    FilterIsSubsequence(tags, keep);
    FilterMultiset(tags, keep);
    FilterMembers(tags, keep);
    Filter(tags, keep)
  }

  /** Every channel with `t` removed from its tags; nothing else about any channel changes. */
  function DropTagEverywhere(cs: seq<Channel>, t: string): (r: seq<Channel>)
    ensures |r| == |cs|
    ensures forall k :: 0 <= k < |cs| ==> r[k] == cs[k].(tags := DropTag(cs[k].tags, t))
  {
    Map(cs, (c: Channel) => c.(tags := DropTag(c.tags, t)))
  }

  /** `selectedTag` after a rename: follows the tag if it was the one renamed. */
  function RenamedSelection(selected: Option<string>, oldTag: string, newTag: string): Option<string> {
    if selected == Some(oldTag) then Some(newTag) else selected
  }

  /** `selectedTag` after a tag deletion: cleared if it was the deleted tag. */
  function DroppedSelection(selected: Option<string>, t: string): Option<string> {
    if selected == Some(t) then None else selected
  }

  // ---------------------------------------------------------------------------
  // Consistency between channels and standalone tags

  /** The relations the handlers keep between the two collections: the standalone list has
      no duplicates and no tag that a channel uses, no channel lists a tag twice, and no two
      channels share an id. */
  predicate Coherent(cs: seq<Channel>, standalone: seq<string>) {
    NoDup(standalone) &&
    (forall k :: 0 <= k < |standalone| ==> standalone[k] !in UsedTags(cs)) &&
    (forall k :: 0 <= k < |cs| ==> NoDup(cs[k].tags)) &&
    UniqueIds(cs)
  }

  /** A save brings in no tag beyond the channels' old tags and the saved record's tags. */
  lemma SavedTagsBound(cs: seq<Channel>, data: ChannelData, editing: Option<Channel>, newId: string)
    ensures UsedTags(SavedChannels(cs, data, editing, newId)) <= UsedTags(cs) + Elems(data.tags)
  {
    var r := SavedChannels(cs, data, editing, newId);
    forall t | t in UsedTags(r) ensures t in UsedTags(cs) + Elems(data.tags) {
      var k :| 0 <= k < |r| && t in r[k].tags;
      if k < |cs| && r[k] == cs[k] {
        assert t in cs[k].tags;
      } else {
        assert r[k].tags == data.tags;
      }
    }
  }

  /** After any save no standalone tag is used by a channel, whatever held before: pruning
      by the old channels' tags and the saved tags covers every tag the new list uses. */
  lemma SaveSeparates(cs: seq<Channel>, standalone: seq<string>, data: ChannelData,
                      editing: Option<Channel>, newId: string)
    ensures var after := Prune(standalone, UsedTags(cs) + Elems(data.tags));
      forall k :: 0 <= k < |after| ==> after[k] !in UsedTags(SavedChannels(cs, data, editing, newId))
  {
    SavedTagsBound(cs, data, editing, newId);
  }

  /** A save keeps the store coherent when the saved record lists no tag twice and, for a new
      channel, the generated id is not in use. */
  lemma SavePreservesCoherence(cs: seq<Channel>, standalone: seq<string>, data: ChannelData,
                               editing: Option<Channel>, newId: string)
    requires Coherent(cs, standalone)
    requires NoDup(data.tags)
    requires editing.None? ==> newId !in Ids(cs)
    ensures Coherent(SavedChannels(cs, data, editing, newId),
                     Prune(standalone, UsedTags(cs) + Elems(data.tags)))
  {
    var r := SavedChannels(cs, data, editing, newId);
    var used := UsedTags(cs) + Elems(data.tags);
    FilterNoDup(standalone, (t: string) => t !in used);
    SaveSeparates(cs, standalone, data, editing, newId);
    forall k | 0 <= k < |r| ensures NoDup(r[k].tags) {
      if k < |cs| && r[k] == cs[k] {
      } else {
        assert r[k].tags == data.tags;
      }
    }
    if editing.Some? {
      forall i, j | 0 <= i < j < |r| ensures r[i].id != r[j].id {
        assert r[i].id == cs[i].id && r[j].id == cs[j].id;
      }
    } else {
      forall i, j | 0 <= i < j < |r| ensures r[i].id != r[j].id {
        if j == |cs| {
          assert r[i] == cs[i] && cs[i] in cs;
        } else {
          assert r[i] == cs[i] && r[j] == cs[j];
        }
      }
    }
  }

  /** Filtering channels keeps their ids distinct. */
  lemma {:induction false} FilterKeepsIdsUnique(cs: seq<Channel>, p: Channel -> bool)
    requires UniqueIds(cs)
    ensures UniqueIds(Filter(cs, p))
  {
    if cs != [] {
      var tail := cs[1..];
      assert UniqueIds(tail) by {
        forall i, j | 0 <= i < j < |tail| ensures tail[i].id != tail[j].id {
          assert tail[i] == cs[i + 1] && tail[j] == cs[j + 1];
        }
      }
      FilterKeepsIdsUnique(tail, p);
      FilterMembers(tail, p);
      var rest := Filter(tail, p);
      if p(cs[0]) {
        var r := [cs[0]] + rest;
        forall i, j | 0 <= i < j < |r| ensures r[i].id != r[j].id {
          if i == 0 {
            assert r[j] == rest[j - 1] && rest[j - 1] in tail;
            var m :| 0 <= m < |tail| && tail[m] == r[j];
            assert cs[m + 1] == r[j];
          } else {
            assert r[i] == rest[i - 1] && r[j] == rest[j - 1];
          }
        }
      }
    }
  }

  /** Deleting a channel keeps the store coherent. */
  lemma DeleteChannelPreservesCoherence(cs: seq<Channel>, standalone: seq<string>, id: string)
    requires Coherent(cs, standalone)
    ensures Coherent(WithoutChannel(cs, id), standalone)
  {
    var r := WithoutChannel(cs, id);
    FilterKeepsIdsUnique(cs, (c: Channel) => c.id != id);
    assert UsedTags(r) <= UsedTags(cs) by {
      forall t | t in UsedTags(r) ensures t in UsedTags(cs) {
        var k :| 0 <= k < |r| && t in r[k].tags;
        var m :| 0 <= m < |cs| && cs[m] == r[k];
      }
    }
    forall k | 0 <= k < |r| ensures NoDup(r[k].tags) {
      var m :| 0 <= m < |cs| && cs[m] == r[k];
    }
  }

  /** Creating a tag keeps the store coherent. */
  lemma CreateTagPreservesCoherence(cs: seq<Channel>, standalone: seq<string>, name: string)
    requires Coherent(cs, standalone)
    ensures Coherent(cs, CreatedStandalone(cs, standalone, name))
  {
    if name !in AllTagSet(cs, standalone) {
      NoDupSnoc(standalone, name);
    }
  }

  /** Which tags a renamed tag list holds. */
  lemma RenameTagsElems(tags: seq<string>, oldTag: string, newTag: string, t: string)
    ensures t in RenameTags(tags, oldTag, newTag) <==> (t == newTag && oldTag in tags) || (t != oldTag && t in tags)
  {
    var r := RenameTags(tags, oldTag, newTag);
    if t in r {
      var i :| 0 <= i < |r| && r[i] == t;
      assert tags[i] == oldTag || tags[i] == t;
    }
    if t == newTag && oldTag in tags {
      var i :| 0 <= i < |tags| && tags[i] == oldTag;
      assert r[i] == newTag;
    }
    if t != oldTag && t in tags {
      var i :| 0 <= i < |tags| && tags[i] == t;
      assert r[i] == t;
    }
  }

  /** Renaming keeps a tag list free of duplicates when the new name is not in it. */
  lemma RenameTagsNoDup(tags: seq<string>, oldTag: string, newTag: string)
    requires NoDup(tags) && newTag !in tags
    ensures NoDup(RenameTags(tags, oldTag, newTag))
  {
    var r := RenameTags(tags, oldTag, newTag);
    forall i, j | 0 <= i < j < |r| ensures r[i] != r[j] {
      assert tags[i] != tags[j];
      assert tags[i] in tags && tags[j] in tags;
    }
  }

  /** Which tags the channels use after a rename. */
  lemma RenameUsedTags(cs: seq<Channel>, oldTag: string, newTag: string, t: string)
    ensures t in UsedTags(RenameInChannels(cs, oldTag, newTag)) <==>
      (t == newTag && oldTag in UsedTags(cs)) || (t != oldTag && t in UsedTags(cs))
  {
    var r := RenameInChannels(cs, oldTag, newTag);
    if t in UsedTags(r) {
      var k :| 0 <= k < |r| && t in r[k].tags;
      RenameTagsElems(cs[k].tags, oldTag, newTag, t);
    }
    if t == newTag && oldTag in UsedTags(cs) {
      var k :| 0 <= k < |cs| && oldTag in cs[k].tags;
      RenameTagsElems(cs[k].tags, oldTag, newTag, t);
      assert t in r[k].tags;
    }
    if t != oldTag && t in UsedTags(cs) {
      var k :| 0 <= k < |cs| && t in cs[k].tags;
      RenameTagsElems(cs[k].tags, oldTag, newTag, t);
      assert t in r[k].tags;
    }
  }

  /** Renaming to a name that is not yet a tag keeps the store coherent: no two tags merge,
      and a standalone tag never collides with a channel's. */
  lemma RenamePreservesCoherence(cs: seq<Channel>, standalone: seq<string>, oldTag: string, newTag: string)
    requires Coherent(cs, standalone)
    requires newTag !in AllTagSet(cs, standalone)
    ensures Coherent(RenameInChannels(cs, oldTag, newTag), RenameTags(standalone, oldTag, newTag))
  {
    var r := RenameInChannels(cs, oldTag, newTag);
    var st := RenameTags(standalone, oldTag, newTag);
    RenameTagsNoDup(standalone, oldTag, newTag);
    forall k | 0 <= k < |st| ensures st[k] !in UsedTags(r) {
      var t := st[k];
      RenameUsedTags(cs, oldTag, newTag, t);
      RenameTagsElems(standalone, oldTag, newTag, t);
      assert t in st;
      if oldTag in standalone {
        var i :| 0 <= i < |standalone| && standalone[i] == oldTag;
      }
      if t in standalone {
        var i :| 0 <= i < |standalone| && standalone[i] == t;
      }
    }
    forall k | 0 <= k < |r| ensures NoDup(r[k].tags) {
      assert newTag !in cs[k].tags;
      RenameTagsNoDup(cs[k].tags, oldTag, newTag);
    }
    forall i, j | 0 <= i < j < |r| ensures r[i].id != r[j].id {
      assert r[i].id == cs[i].id && r[j].id == cs[j].id;
    }
  }

  /** Deleting a tag keeps the store coherent. */
  lemma DeleteTagPreservesCoherence(cs: seq<Channel>, standalone: seq<string>, t: string)
    requires Coherent(cs, standalone)
    ensures Coherent(DropTagEverywhere(cs, t), DropTag(standalone, t))
  {
    var r := DropTagEverywhere(cs, t);
    var st := DropTag(standalone, t);
    FilterNoDup(standalone, (x: string) => x != t);
    DropTagUsedTags(cs, t);
    forall k | 0 <= k < |st| ensures st[k] !in UsedTags(r) {
      assert st[k] in standalone;
    }
    DropTagKeepsNoDup(cs, t);
    DropTagKeepsIds(cs, t);
  }

  /** Removing a tag from every channel removes exactly that tag from the tags in use. */
  lemma DropTagUsedTags(cs: seq<Channel>, t: string)
    ensures UsedTags(DropTagEverywhere(cs, t)) == UsedTags(cs) - {t}
  {
    var r := DropTagEverywhere(cs, t);
    forall u ensures u in UsedTags(r) <==> u in UsedTags(cs) && u != t {
      if u in UsedTags(r) {
        var k :| 0 <= k < |r| && u in r[k].tags;
        assert u in cs[k].tags;
      }
      if u != t && u in UsedTags(cs) {
        var k :| 0 <= k < |cs| && u in cs[k].tags;
        var i :| 0 <= i < |cs[k].tags| && cs[k].tags[i] == u;
        assert u in r[k].tags;
      }
    }
  }

  lemma DropTagKeepsNoDup(cs: seq<Channel>, t: string)
    requires forall k :: 0 <= k < |cs| ==> NoDup(cs[k].tags)
    ensures forall k :: 0 <= k < |cs| ==> NoDup(DropTagEverywhere(cs, t)[k].tags)
  {
    forall k | 0 <= k < |cs| ensures NoDup(DropTagEverywhere(cs, t)[k].tags) {
      FilterNoDup(cs[k].tags, (x: string) => x != t);
    }
  }

  lemma DropTagKeepsIds(cs: seq<Channel>, t: string)
    requires UniqueIds(cs)
    ensures UniqueIds(DropTagEverywhere(cs, t))
  {
    var r := DropTagEverywhere(cs, t);
    forall i, j | 0 <= i < j < |r| ensures r[i].id != r[j].id {
      assert r[i].id == cs[i].id && r[j].id == cs[j].id;
    }
  }

  // ---------------------------------------------------------------------------
  // Properties of the individual operations

  /** Deleting the same id twice is deleting it once. */
  lemma DeleteChannelIdempotent(cs: seq<Channel>, id: string)
    ensures WithoutChannel(WithoutChannel(cs, id), id) == WithoutChannel(cs, id)
  {
    FilterIdempotent(cs, (c: Channel) => c.id != id);
  }

  /** Deleting an id no channel has changes nothing. */
  lemma DeleteAbsentChannel(cs: seq<Channel>, id: string)
    requires id !in Ids(cs)
    ensures WithoutChannel(cs, id) == cs
  {
    forall i | 0 <= i < |cs| ensures cs[i].id != id {
      assert cs[i] in cs;
    }
    FilterKeepsAll(cs, (c: Channel) => c.id != id);
  }

  /** With distinct ids, deleting a channel removes exactly one entry. */
  lemma DeleteChannelRemovesOne(cs: seq<Channel>, k: nat)
    requires UniqueIds(cs) && k < |cs|
    ensures WithoutChannel(cs, cs[k].id) == cs[..k] + cs[k + 1..]
  {
    var id := cs[k].id;
    forall i | 0 <= i < |cs| && i != k ensures cs[i].id != id {
      assert i < k ==> cs[i].id != cs[k].id;
      assert i > k ==> cs[k].id != cs[i].id;
    }
    assert cs == cs[..k] + [cs[k]] + cs[k + 1..];
    FilterSkipsOne(cs[..k], cs[k], cs[k + 1..], (c: Channel) => c.id != id);
  }

  /** Editing a channel whose id is no longer present changes no channel. */
  lemma EditMissingChannel(cs: seq<Channel>, data: ChannelData, editing: Channel, newId: string)
    requires editing.id !in Ids(cs)
    ensures SavedChannels(cs, data, Some(editing), newId) == cs
  {
    var r := SavedChannels(cs, data, Some(editing), newId);
    forall k | 0 <= k < |cs| ensures r[k] == cs[k] {
      assert cs[k] in cs;
    }
  }

  /** With distinct ids, editing channel `k` replaces that one entry and keeps its id. */
  lemma EditReplacesOne(cs: seq<Channel>, data: ChannelData, k: nat, newId: string)
    requires UniqueIds(cs) && k < |cs|
    ensures SavedChannels(cs, data, Some(cs[k]), newId) == cs[k := WithId(data, cs[k].id)]
  {
    var r := SavedChannels(cs, data, Some(cs[k]), newId);
    forall i | 0 <= i < |cs| ensures r[i] == cs[k := WithId(data, cs[k].id)][i] {
      if i != k {
        assert i < k ==> cs[i].id != cs[k].id;
        assert i > k ==> cs[k].id != cs[i].id;
      }
    }
  }

  /** Saving a new channel and then saving it again as an edit leaves one channel under the
      id it was created with, holding the second record. */
  lemma AddThenEdit(cs: seq<Channel>, first: ChannelData, second: ChannelData, newId: string, otherId: string)
    requires UniqueIds(cs) && newId !in Ids(cs)
    ensures var added := SavedChannels(cs, first, None, newId);
      SavedChannels(added, second, Some(added[|cs|]), otherId) == cs + [WithId(second, newId)]
  {
    var added := SavedChannels(cs, first, None, newId);
    assert UniqueIds(added) by {
      forall i, j | 0 <= i < j < |added| ensures added[i].id != added[j].id {
        if j == |cs| {
          assert added[i] == cs[i] && cs[i] in cs;
        } else {
          assert added[i] == cs[i] && added[j] == cs[j];
        }
      }
    }
    EditReplacesOne(added, second, |cs|, otherId);
  }

  /** Renaming back undoes a rename to a name that was not in the list. */
  lemma RenameTagsInverse(tags: seq<string>, oldTag: string, newTag: string)
    requires newTag !in tags
    ensures RenameTags(RenameTags(tags, oldTag, newTag), newTag, oldTag) == tags
  {
    var r := RenameTags(tags, oldTag, newTag);
    var back := RenameTags(r, newTag, oldTag);
    forall i | 0 <= i < |tags| ensures back[i] == tags[i] {
      assert tags[i] in tags;
    }
  }

  /** After a rename the old name is gone from the tag index and the new one is present
      exactly when the old one was (or already was itself). */
  lemma RenameRetargets(cs: seq<Channel>, standalone: seq<string>, oldTag: string, newTag: string)
    requires oldTag != newTag
    ensures var after := AllTagSet(RenameInChannels(cs, oldTag, newTag), RenameTags(standalone, oldTag, newTag));
      oldTag !in after &&
      (newTag in after <==> oldTag in AllTagSet(cs, standalone) || newTag in AllTagSet(cs, standalone))
  {
    RenameUsedTags(cs, oldTag, newTag, oldTag);
    RenameUsedTags(cs, oldTag, newTag, newTag);
    RenameTagsElems(standalone, oldTag, newTag, oldTag);
    RenameTagsElems(standalone, oldTag, newTag, newTag);
  }

  /** Under the precondition the sidebar supplies, a rename moves every occurrence of the old
      name to the new one and merges nothing. */
  lemma RenameMovesOccurrences(cs: seq<Channel>, oldTag: string, newTag: string)
    requires oldTag != newTag && newTag !in UsedTags(cs)
    ensures Occurrences(RenameInChannels(cs, oldTag, newTag), newTag) == Occurrences(cs, oldTag)
    ensures Occurrences(RenameInChannels(cs, oldTag, newTag), oldTag) == 0
  {
    RenameOccurrences(cs, oldTag, newTag);
    RenameUsedTags(cs, oldTag, newTag, oldTag);
  }

  lemma {:induction false} RenameOccurrences(cs: seq<Channel>, oldTag: string, newTag: string)
    requires oldTag != newTag && newTag !in UsedTags(cs)
    ensures Occurrences(RenameInChannels(cs, oldTag, newTag), newTag) == Occurrences(cs, oldTag)
  {
    if cs != [] {
      var front, last := cs[..|cs| - 1], cs[|cs| - 1];
      var renamed := last.(tags := RenameTags(last.tags, oldTag, newTag));
      assert cs == front + [last];
      UsedTagsSnoc(front, last);
      RenameOccurrences(front, oldTag, newTag);
      RenameInChannelsSnoc(front, last, oldTag, newTag);
      OccurrencesSnoc(RenameInChannels(front, oldTag, newTag), renamed, newTag);
      OccurrencesSnoc(front, last, oldTag);
      RenameCounts(last.tags, oldTag, newTag);
    }
  }

  lemma RenameInChannelsSnoc(cs: seq<Channel>, c: Channel, oldTag: string, newTag: string)
    ensures RenameInChannels(cs + [c], oldTag, newTag) ==
      RenameInChannels(cs, oldTag, newTag) + [c.(tags := RenameTags(c.tags, oldTag, newTag))]
  {
    var a := RenameInChannels(cs + [c], oldTag, newTag);
    var b := RenameInChannels(cs, oldTag, newTag) + [c.(tags := RenameTags(c.tags, oldTag, newTag))];
    forall k | 0 <= k < |a| ensures a[k] == b[k] {
      if k < |cs| {
        assert (cs + [c])[k] == cs[k];
      }
    }
  }

  /** Tag-list form of `RenameMovesOccurrences`. */
  lemma {:induction false} RenameCounts(tags: seq<string>, oldTag: string, newTag: string)
    requires oldTag != newTag && newTag !in tags
    ensures multiset(RenameTags(tags, oldTag, newTag))[newTag] == multiset(tags)[oldTag]
    ensures multiset(RenameTags(tags, oldTag, newTag))[oldTag] == 0
  {
    if tags != [] {
      var r := RenameTags(tags, oldTag, newTag);
      assert tags == [tags[0]] + tags[1..];
      assert r == [r[0]] + r[1..];
      assert r[1..] == RenameTags(tags[1..], oldTag, newTag);
      RenameCounts(tags[1..], oldTag, newTag);
    }
  }

  /** Concrete witness that the store alone does not prevent a merge: renaming "a" to "b" in a
      channel tagged ["a", "b"] makes that one channel count twice for "b". */
  lemma MergingRenameCountsTwice()
    ensures var cs := [Channel("1", "https://x", None, ["a", "b"], None, None)];
      var r := RenameInChannels(cs, "a", "b");
      r[0].tags == ["b", "b"] && Occurrences(r, "b") == 2 && |ChannelsWithTag(r, "b")| == 1
  {
    var cs := [Channel("1", "https://x", None, ["a", "b"], None, None)];
    var r := RenameInChannels(cs, "a", "b");
    assert r[0].tags == ["b", "b"];
    assert r[..0] == [];
    assert multiset(["b", "b"])["b"] == 2;
    assert ChannelsWithTag(r, "b") == [r[0]] + ChannelsWithTag(r[1..], "b");
    assert r[1..] == [];
  }

  /** After deleting a tag no channel and no standalone entry holds it, and every other tag
      remains exactly where it was in use. */
  lemma DeleteTagRemovesIt(cs: seq<Channel>, standalone: seq<string>, t: string)
    ensures AllTagSet(DropTagEverywhere(cs, t), DropTag(standalone, t)) == AllTagSet(cs, standalone) - {t}
  {
    var r := DropTagEverywhere(cs, t);
    var st := DropTag(standalone, t);
    DropTagUsedTags(cs, t);
    forall u ensures u in Elems(st) <==> u in Elems(standalone) && u != t {
      if u != t && u in standalone {
        var i :| 0 <= i < |standalone| && standalone[i] == u;
      }
    }
  }

  /** Deleting the only channel does not reach storage, so a reload brings it back. */
  lemma DeletingLastChannelIsNotPersisted(storage: Storage, c: Channel, standalone: seq<string>, sample: seq<Channel>)
    requires InSync(storage, [c], standalone)
    ensures WithoutChannel([c], c.id) == []
    ensures LoadChannels(SaveChannels(storage, WithoutChannel([c], c.id)), sample) == [c]
  {
    assert [c][1..] == [];
  }

  /** Creating "gaming" in an empty store gives the tag list ["gaming"], counted 0. */
  lemma CreateInEmptyStore(allTags: seq<string>, counts: map<string, nat>)
    requires StrictlySorted(allTags)
    requires forall t :: t in allTags <==> t in AllTagSet([], CreatedStandalone([], [], "gaming"))
    requires IsTagCounts(counts, [], CreatedStandalone([], [], "gaming"))
    ensures CreatedStandalone([], [], "gaming") == ["gaming"]
    ensures allTags == ["gaming"]
    ensures counts == map["gaming" := 0]
  {
    assert Elems(["gaming"]) == {"gaming"};
    StrictlySortedUnique(allTags, ["gaming"]);
  }

  /** Deleting "tech" from a channel tagged ["gaming", "tech"] leaves ["gaming"]. */
  lemma DeleteTechScenario(c: Channel)
    requires c.tags == ["gaming", "tech"]
    ensures DropTagEverywhere([c], "tech") == [c.(tags := ["gaming"])]
    ensures AllTagSet(DropTagEverywhere([c], "tech"), []) == {"gaming"}
  {
    var keep := (x: string) => x != "tech";
    assert Filter(["tech"], keep) == [];
    assert Filter(["gaming", "tech"], keep) == ["gaming"] by {
      assert ["gaming", "tech"][1..] == ["tech"];
    }
    var r := DropTagEverywhere([c], "tech");
    assert r[..0] == [];
    assert Elems(["gaming"]) == {"gaming"};
  }

  // ---------------------------------------------------------------------------
  // The store

  /** The `Home` component's store state together with the storage its effects write. */
  class Store {
    var channels: seq<Channel>
    var standaloneTags: seq<string>
    var selectedTag: Option<string>
    var storage: Storage

    /** Storage holds what the save effects last wrote for the current state. */
    ghost predicate Valid()
      reads this
    {
      InSync(storage, channels, standaloneTags)
    }

    /** Mounting the component: the load effect installs stored or sample channels and any
        stored standalone tags; the save effects then write both records back. */
    constructor Initialize(stored: Storage, sample: seq<Channel>)
      requires WellFormed(stored)
      ensures channels == LoadChannels(stored, sample)
      ensures standaloneTags == LoadStandaloneTags(stored)
      ensures selectedTag == None
      ensures storage == SaveStandaloneTags(SaveChannels(stored, channels), standaloneTags)
      ensures Valid()
    {
      var cs := LoadChannels(stored, sample);
      var st := LoadStandaloneTags(stored);
      channels := cs;
      standaloneTags := st;
      selectedTag := None;
      storage := SaveStandaloneTags(SaveChannels(stored, cs), st);
      SavesSync(stored, cs, st);
    }

    /** `handleDeleteChannel`, after the user confirms. */
    method DeleteChannel(id: string)
      requires Valid()
      modifies this
      ensures channels == WithoutChannel(old(channels), id)
      ensures standaloneTags == old(standaloneTags) && selectedTag == old(selectedTag)
      ensures storage == SaveChannels(old(storage), channels)
      ensures Valid()
      ensures old(Coherent(channels, standaloneTags)) ==> Coherent(channels, standaloneTags)
    {
      if Coherent(channels, standaloneTags) {
        DeleteChannelPreservesCoherence(channels, standaloneTags, id);
      }
      channels := WithoutChannel(channels, id);
      storage := SaveChannels(storage, channels);
    }

    /** `handleSaveChannel(data)`, with `editing` the channel the dialog was opened for and
        `newId` the value `Date.now().toString()` yields. The tags in use are collected from
        the channels as they were before the save. */
    method SaveChannel(data: ChannelData, editing: Option<Channel>, newId: string)
      requires Valid()
      modifies this
      ensures channels == SavedChannels(old(channels), data, editing, newId)
      ensures standaloneTags == Prune(old(standaloneTags), UsedTags(old(channels)) + Elems(data.tags))
      ensures selectedTag == old(selectedTag)
      ensures storage == SaveStandaloneTags(SaveChannels(old(storage), channels), standaloneTags)
      ensures Valid()
      ensures forall k :: 0 <= k < |standaloneTags| ==> standaloneTags[k] !in UsedTags(channels)
      ensures (old(Coherent(channels, standaloneTags)) && NoDup(data.tags) &&
               (editing.None? ==> newId !in Ids(old(channels)))) ==> Coherent(channels, standaloneTags)
    {
      var used := CollectUsedTags(channels, data.tags);
      var saved := SavedChannels(channels, data, editing, newId);
      var pruned := Prune(standaloneTags, used);
      SaveSeparates(channels, standaloneTags, data, editing, newId);
      if Coherent(channels, standaloneTags) && NoDup(data.tags) && (editing.None? ==> newId !in Ids(channels)) {
        SavePreservesCoherence(channels, standaloneTags, data, editing, newId);
        assert Coherent(saved, pruned);
      }
      SavesSync(storage, saved, pruned);
      channels := saved;
      standaloneTags := pruned;
      storage := SaveStandaloneTags(SaveChannels(storage, channels), standaloneTags);
    }

    /** `handleCreateTag(name)`: the tag index is computed and `name` is appended only when
        it is not one of `allTags`; otherwise nothing changes. */
    method CreateTag(name: string)
      requires Valid()
      modifies this
      ensures channels == old(channels) && selectedTag == old(selectedTag)
      ensures standaloneTags == CreatedStandalone(old(channels), old(standaloneTags), name)
      ensures storage == if name in AllTagSet(old(channels), old(standaloneTags)) then old(storage)
                         else SaveStandaloneTags(old(storage), standaloneTags)
      ensures Valid()
      ensures old(Coherent(channels, standaloneTags)) ==> Coherent(channels, standaloneTags)
    {
      var allTags, _ := ComputeTagIndex(channels, standaloneTags);
      if Coherent(channels, standaloneTags) {
        CreateTagPreservesCoherence(channels, standaloneTags, name);
      }
      if name !in allTags {
        standaloneTags := standaloneTags + [name];
        storage := SaveStandaloneTags(storage, standaloneTags);
      }
    }

    /** `handleRenameTag(oldTag, newTag)`. */
    method RenameTag(oldTag: string, newTag: string)
      requires Valid()
      modifies this
      ensures channels == RenameInChannels(old(channels), oldTag, newTag)
      ensures standaloneTags == RenameTags(old(standaloneTags), oldTag, newTag)
      ensures selectedTag == RenamedSelection(old(selectedTag), oldTag, newTag)
      ensures storage == SaveStandaloneTags(SaveChannels(old(storage), channels), standaloneTags)
      ensures Valid()
      ensures old(Coherent(channels, standaloneTags)) && newTag !in AllTagSet(old(channels), old(standaloneTags))
              ==> Coherent(channels, standaloneTags)
    {
      if Coherent(channels, standaloneTags) && newTag !in AllTagSet(channels, standaloneTags) {
        RenamePreservesCoherence(channels, standaloneTags, oldTag, newTag);
      }
      var cs := RenameInChannels(channels, oldTag, newTag);
      var st := RenameTags(standaloneTags, oldTag, newTag);
      SavesSync(storage, cs, st);
      channels := cs;
      standaloneTags := st;
      if selectedTag == Some(oldTag) {
        selectedTag := Some(newTag);
      }
      storage := SaveStandaloneTags(SaveChannels(storage, channels), standaloneTags);
    }

    /** `handleDeleteTag(t)`, after the user confirms. */
    method DeleteTag(t: string)
      requires Valid()
      modifies this
      ensures channels == DropTagEverywhere(old(channels), t)
      ensures standaloneTags == DropTag(old(standaloneTags), t)
      ensures selectedTag == DroppedSelection(old(selectedTag), t)
      ensures storage == SaveStandaloneTags(SaveChannels(old(storage), channels), standaloneTags)
      ensures Valid()
      ensures old(Coherent(channels, standaloneTags)) ==> Coherent(channels, standaloneTags)
    {
      if Coherent(channels, standaloneTags) {
        DeleteTagPreservesCoherence(channels, standaloneTags, t);
      }
      var cs := DropTagEverywhere(channels, t);
      var st := DropTag(standaloneTags, t);
      SavesSync(storage, cs, st);
      channels := cs;
      standaloneTags := st;
      if selectedTag == Some(t) {
        selectedTag := None;
      }
      storage := SaveStandaloneTags(SaveChannels(storage, channels), standaloneTags);
    }

    /** `setSelectedTag`, passed to the sidebar as `onTagSelect`. */
    method SelectTag(tag: Option<string>)
      modifies this`selectedTag
      ensures selectedTag == tag
    {
      selectedTag := tag;
    }
  }
}
