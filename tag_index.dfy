/** The derived tag index of app/page.tsx: the sorted list of every tag (`allTags`), the
    per-tag counts (`tagCounts`), and the set of tags in use that `handleSaveChannel` builds. */
module TagIndex {
  import opened Seqs
  import opened Text
  import opened Sorting
  import opened Channels

  /** The tags at least one channel carries. */
  function UsedTags(cs: seq<Channel>): (r: set<string>)
    ensures forall t :: t in r <==> exists k :: 0 <= k < |cs| && t in cs[k].tags
  {
    if cs == [] then {}
    else
      var front := cs[..|cs| - 1];
      var r := UsedTags(front) + Elems(cs[|cs| - 1].tags);
      assert forall k :: 0 <= k < |front| ==> front[k] == cs[k];
      r
  }

  /** How many times `t` occurs across all channels' tag lists. */
  function Occurrences(cs: seq<Channel>, t: string): (n: nat)
    ensures n > 0 <==> t in UsedTags(cs)
  {
    if cs == [] then 0
    else Occurrences(cs[..|cs| - 1], t) + multiset(cs[|cs| - 1].tags)[t]
  }

  /** Every tag the sidebar offers: those in use and the standalone ones. */
  function AllTagSet(cs: seq<Channel>, standalone: seq<string>): set<string> {
    UsedTags(cs) + Elems(standalone)
  }

  /** `counts` is a correct `tagCounts` record: one key per tag, holding its occurrences. */
  predicate IsTagCounts(counts: map<string, nat>, cs: seq<Channel>, standalone: seq<string>) {
    counts.Keys == AllTagSet(cs, standalone) &&
    forall t :: t in counts ==> counts[t] == Occurrences(cs, t)
  }

  /** The channels whose tag list holds `t`. */
  function ChannelsWithTag(cs: seq<Channel>, t: string): (r: seq<Channel>)
    ensures forall k :: 0 <= k < |r| ==> t in r[k].tags
  {
    FilterMembers(cs, (c: Channel) => t in c.tags);
    Filter(cs, (c: Channel) => t in c.tags)
  }

  lemma UsedTagsSnoc(cs: seq<Channel>, c: Channel)
    ensures UsedTags(cs + [c]) == UsedTags(cs) + Elems(c.tags)
  {
    assert (cs + [c])[..|cs|] == cs;
  }

  lemma OccurrencesSnoc(cs: seq<Channel>, c: Channel, t: string)
    ensures Occurrences(cs + [c], t) == Occurrences(cs, t) + multiset(c.tags)[t]
  {
    assert (cs + [c])[..|cs|] == cs;
  }

  /** When no channel lists a tag twice, a tag's count is the number of channels holding it. */
  lemma {:induction false} OccurrencesCountChannels(cs: seq<Channel>, t: string)
    requires forall k :: 0 <= k < |cs| ==> NoDup(cs[k].tags)
    ensures Occurrences(cs, t) == |ChannelsWithTag(cs, t)|
  {
    if cs != [] {
      var front, last := cs[..|cs| - 1], cs[|cs| - 1];
      assert cs == front + [last];
      OccurrencesCountChannels(front, t);
      FilterSnoc(front, last, (c: Channel) => t in c.tags);
      NoDupMultiplicity(last.tags, t);
    }
  }

  /** The `allTags`/`tagCounts` memo: one pass over every channel's tags, adding each to the
      tag set and incrementing its count, then one pass over the standalone tags that adds
      each and gives it count 0 unless it already has a count; the tag set is then sorted. */
  method ComputeTagIndex(channels: seq<Channel>, standalone: seq<string>)
    returns (allTags: seq<string>, tagCounts: map<string, nat>)
    ensures StrictlySorted(allTags) && NoDup(allTags)
    ensures forall t :: t in allTags <==> t in AllTagSet(channels, standalone)
    ensures IsTagCounts(tagCounts, channels, standalone)
  {
    var tagSet1, counts1 := CountChannelTags(channels);
    var tagSet, counts := AddStandaloneTags(tagSet1, counts1, standalone);
    AddAllSpec(tagSet1, standalone);
    ZeroFillSpec(counts1, standalone);
    assert counts.Keys == AllTagSet(channels, standalone);
    forall t | t in counts ensures counts[t] == Occurrences(channels, t) {
      if t !in counts1 {
        assert t !in UsedTags(channels);
      }
    }
    allTags := Sort(tagSet);
    SortKeepsElements(tagSet);
    StrictlySortedNoDup(allTags);
    tagCounts := counts;
  }

  /** The second pass of the memo: each standalone tag joins the tag set and gets a count
      of 0 unless it already has a non-zero one. */
  method AddStandaloneTags(tagSet0: seq<string>, counts0: map<string, nat>, standalone: seq<string>)
    returns (tagSet: seq<string>, counts: map<string, nat>)
    ensures tagSet == AddAll(tagSet0, standalone)
    ensures counts == ZeroFill(counts0, standalone)
  {
    tagSet, counts := tagSet0, counts0;
    var k := 0;
    while k < |standalone|
      invariant 0 <= k <= |standalone|
      invariant tagSet == AddAll(tagSet0, standalone[..k])
      invariant counts == ZeroFill(counts0, standalone[..k])
    {
      var tag := standalone[k];
      assert standalone[..k + 1][..k] == standalone[..k];
      if tag !in tagSet {
        tagSet := tagSet + [tag];
      }
      if tag !in counts || counts[tag] == 0 {
        counts := counts[tag := 0];
      }
      k := k + 1;
    }
    assert standalone[..|standalone|] == standalone;
  }

  /** The first pass of the memo: the tags of every channel in first-seen order (a `Set`'s
      iteration order) and the number of times each occurs. */
  method CountChannelTags(channels: seq<Channel>) returns (tagSet: seq<string>, counts: map<string, nat>)
    ensures NoDup(tagSet)
    ensures Elems(tagSet) == UsedTags(channels)
    ensures counts.Keys == Elems(tagSet)
    ensures forall t :: t in counts ==> counts[t] == Occurrences(channels, t)
  {
    tagSet, counts := [], map[];
    var i := 0;
    while i < |channels|
      invariant 0 <= i <= |channels|
      invariant NoDup(tagSet)
      invariant Elems(tagSet) == UsedTags(channels[..i])
      invariant counts.Keys == Elems(tagSet)
      invariant forall t :: t in counts ==> counts[t] == Occurrences(channels[..i], t)
    {
      var tags := channels[i].tags;
      tagSet, counts := TallyTags(tagSet, counts, tags);
      assert channels[..i + 1] == channels[..i] + [channels[i]];
      UsedTagsSnoc(channels[..i], channels[i]);
      forall t ensures Occurrences(channels[..i + 1], t) == Occurrences(channels[..i], t) + multiset(tags)[t] {
        OccurrencesSnoc(channels[..i], channels[i], t);
      }
      i := i + 1;
    }
    assert channels[..|channels|] == channels;
  }

  /** `Set.add` for each of `tags` in turn, on a set kept as its insertion order. */
  function AddAll(tagSet: seq<string>, tags: seq<string>): seq<string>
    decreases |tags|
  {
    if tags == [] then tagSet
    else
      var before := AddAll(tagSet, tags[..|tags| - 1]);
      if tags[|tags| - 1] in before then before else before + [tags[|tags| - 1]]
  }

  /** Adding tags to a set yields exactly the old members and the tags, each once. */
  lemma {:induction false} AddAllSpec(tagSet: seq<string>, tags: seq<string>)
    requires NoDup(tagSet)
    ensures NoDup(AddAll(tagSet, tags))
    ensures Elems(AddAll(tagSet, tags)) == Elems(tagSet) + Elems(tags)
    decreases |tags|
  {
    if tags != [] {
      var front, last := tags[..|tags| - 1], tags[|tags| - 1];
      AddAllSpec(tagSet, front);
      var before := AddAll(tagSet, front);
      assert tags == front + [last];
      ElemsSnoc(front, last);
      if last !in before {
        ElemsSnoc(before, last);
        NoDupSnoc(before, last);
      }
    }
  }

  /** `counts[tag] = (counts[tag] || 0) + 1` for each of `tags` in turn. */
  function Tally(counts: map<string, nat>, tags: seq<string>): map<string, nat>
    decreases |tags|
  {
    if tags == [] then counts
    else
      var before := Tally(counts, tags[..|tags| - 1]);
      var last := tags[|tags| - 1];
      before[last := (if last in before then before[last] else 0) + 1]
  }

  /** Tallying adds each tag's number of occurrences to its starting count, and the keys
      become the old keys and the tags. */
  lemma {:induction false} TallySpec(counts: map<string, nat>, tags: seq<string>)
    ensures Tally(counts, tags).Keys == counts.Keys + Elems(tags)
    ensures forall t :: t in Tally(counts, tags) ==>
      Tally(counts, tags)[t] == (if t in counts then counts[t] else 0) + multiset(tags)[t]
    decreases |tags|
  {
    if tags != [] {
      var front, last := tags[..|tags| - 1], tags[|tags| - 1];
      TallySpec(counts, front);
      assert tags == front + [last];
      assert multiset(tags) == multiset(front) + multiset{last};
      ElemsSnoc(front, last);
    }
  }

  /** `if (!counts[tag]) counts[tag] = 0` for each of `tags` in turn. */
  function ZeroFill(counts: map<string, nat>, tags: seq<string>): map<string, nat>
    decreases |tags|
  {
    if tags == [] then counts
    else
      var before := ZeroFill(counts, tags[..|tags| - 1]);
      var last := tags[|tags| - 1];
      if last !in before || before[last] == 0 then before[last := 0] else before
  }

  /** Zero-filling gives every tag a key and leaves every existing count as it was. */
  lemma {:induction false} ZeroFillSpec(counts: map<string, nat>, tags: seq<string>)
    ensures ZeroFill(counts, tags).Keys == counts.Keys + Elems(tags)
    ensures forall t :: t in ZeroFill(counts, tags) ==>
      ZeroFill(counts, tags)[t] == if t in counts then counts[t] else 0
    decreases |tags|
  {
    if tags != [] {
      var front, last := tags[..|tags| - 1], tags[|tags| - 1];
      ZeroFillSpec(counts, front);
      assert tags == front + [last];
      ElemsSnoc(front, last);
    }
  }

  /** The inner `forEach` of the first pass: adds each tag of one channel to the tag set
      and increments its count (`counts[tag] = (counts[tag] || 0) + 1`). */
  method TallyTags(tagSet0: seq<string>, counts0: map<string, nat>, tags: seq<string>)
    returns (tagSet: seq<string>, counts: map<string, nat>)
    requires NoDup(tagSet0) && counts0.Keys == Elems(tagSet0)
    ensures NoDup(tagSet) && Elems(tagSet) == Elems(tagSet0) + Elems(tags)
    ensures counts.Keys == Elems(tagSet)
    ensures forall t :: t in counts ==>
      counts[t] == (if t in counts0 then counts0[t] else 0) + multiset(tags)[t]
  {
    tagSet, counts := tagSet0, counts0;
    var j := 0;
    while j < |tags|
      invariant 0 <= j <= |tags|
      invariant tagSet == AddAll(tagSet0, tags[..j])
      invariant counts == Tally(counts0, tags[..j])
    {
      var tag := tags[j];
      assert tags[..j + 1][..j] == tags[..j];
      if tag !in tagSet {
        tagSet := tagSet + [tag];
      }
      counts := counts[tag := (if tag in counts then counts[tag] else 0) + 1];
      j := j + 1;
    }
    assert tags[..|tags|] == tags;
    AddAllSpec(tagSet0, tags);
    TallySpec(counts0, tags);
  }

  /** The `usedTags` set of `handleSaveChannel`: every tag of every channel, then the tags
      of the record being saved. */
  method CollectUsedTags(channels: seq<Channel>, saved: seq<string>) returns (used: set<string>)
    ensures used == UsedTags(channels) + Elems(saved)
  {
    used := {};
    var i := 0;
    while i < |channels|
      invariant 0 <= i <= |channels|
      invariant used == UsedTags(channels[..i])
    {
      used := AddEach(used, channels[i].tags);
      assert channels[..i + 1] == channels[..i] + [channels[i]];
      UsedTagsSnoc(channels[..i], channels[i]);
      i := i + 1;
    }
    assert channels[..|channels|] == channels;
    used := AddEach(used, saved);
  }

  /** `tags.forEach(tag => usedTags.add(tag))`. */
  method AddEach(used0: set<string>, tags: seq<string>) returns (used: set<string>)
    ensures used == used0 + Elems(tags)
  {
    used := used0;
    var j := 0;
    while j < |tags|
      invariant 0 <= j <= |tags|
      invariant used == used0 + Elems(tags[..j])
    {
      assert tags[..j + 1] == tags[..j] + [tags[j]];
      ElemsSnoc(tags[..j], tags[j]);
      used := used + {tags[j]};
      j := j + 1;
    }
    assert tags[..|tags|] == tags;
  }
}
