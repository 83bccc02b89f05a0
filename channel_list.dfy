/** The `filteredChannels` memo of components/list/ChannelList.tsx and the two texts that
    depend on it: the count line under the heading and the empty-state message. */
module ChannelList {
  import opened Wrappers
  import opened Seqs
  import opened Text
  import opened Channels
  import opened TagIndex

  /** `if (selectedTag)`: the tag filter applies to a selected, non-empty tag. */
  predicate TagActive(selected: Option<string>) {
    selected.Some? && selected.value != ""
  }

  /** The search predicate for an already lowercased query: the lowercased name, some
      lowercased tag, or the lowercased note contains it. The link is not searched. */
  predicate MatchesQuery(c: Channel, query: string) {
    (c.name.Some? && Contains(Lower(c.name.value), query)) ||
    (exists i :: 0 <= i < |c.tags| && Contains(Lower(c.tags[i]), query)) ||
    (c.note.Some? && Contains(Lower(c.note.value), query))
  }

  /** The channels the search keeps for the lowercased query `query`. */
  function Matching(cs: seq<Channel>, query: string): (r: seq<Channel>)
    ensures forall k :: 0 <= k < |r| ==> r[k] in cs && MatchesQuery(r[k], query)
  {
    FilterMembers(cs, (c: Channel) => MatchesQuery(c, query));
    Filter(cs, (c: Channel) => MatchesQuery(c, query))
  }

  /** `filteredChannels`: the tag filter when a tag is selected, then the search when the
      query is non-empty. */
  function FilteredChannels(cs: seq<Channel>, selected: Option<string>, query: string): (r: seq<Channel>)
    ensures TagActive(selected) ==> forall k :: 0 <= k < |r| ==> selected.value in r[k].tags
    ensures query != "" ==> forall k :: 0 <= k < |r| ==> MatchesQuery(r[k], Lower(query))
  {
    var byTag := if TagActive(selected) then ChannelsWithTag(cs, selected.value) else cs;
    if query != "" then Matching(byTag, Lower(query)) else byTag
  }

  /** Whether one channel is listed: it has the selected tag if one is active, and it matches
      the query if one is typed. */
  predicate Shown(c: Channel, selected: Option<string>, query: string) {
    (TagActive(selected) ==> selected.value in c.tags) &&
    (query != "" ==> MatchesQuery(c, Lower(query)))
  }

  /** The listed channels as one filter on the conjunction of both conditions. */
  function ShownChannels(cs: seq<Channel>, selected: Option<string>, query: string): seq<Channel> {
    Filter(cs, (c: Channel) => Shown(c, selected, query))
  }

  /** The tag filter followed by the search is one filter on the conjunction. */
  lemma FilteredIsOneFilter(cs: seq<Channel>, selected: Option<string>, query: string)
    ensures FilteredChannels(cs, selected, query) == ShownChannels(cs, selected, query)
  {
    var shown := (c: Channel) => Shown(c, selected, query);
    var q := Lower(query);
    var search := (c: Channel) => MatchesQuery(c, q);
    if TagActive(selected) {
      var t := selected.value;
      var hasTag := (c: Channel) => t in c.tags;
      if query != "" {
        FilterCompose(cs, hasTag, search, shown);
      } else {
        FilterCongruent(cs, hasTag, shown);
      }
    } else if query != "" {
      FilterCongruent(cs, search, shown);
    } else {
      FilterKeepsAll(cs, shown);
    }
  }

  /** The list shows an order-preserving subsequence of the channels. */
  lemma FilteredIsSubsequence(cs: seq<Channel>, selected: Option<string>, query: string)
    ensures IsSubsequence(FilteredChannels(cs, selected, query), cs)
  {
    FilteredIsOneFilter(cs, selected, query);
    FilterIsSubsequence(cs, (c: Channel) => Shown(c, selected, query));
  }

  /** A channel is listed exactly when it is one of the channels and passes both filters. */
  lemma FilteredMembership(cs: seq<Channel>, selected: Option<string>, query: string, c: Channel)
    ensures c in FilteredChannels(cs, selected, query) <==> c in cs && Shown(c, selected, query)
  {
    FilteredIsOneFilter(cs, selected, query);
    FilterMembers(cs, (c: Channel) => Shown(c, selected, query));
    var r := ShownChannels(cs, selected, query);
    if c in r {
      var k :| 0 <= k < |r| && r[k] == c;
    }
    if c in cs && Shown(c, selected, query) {
      var k :| 0 <= k < |cs| && cs[k] == c;
    }
  }

  /** With no tag selected and an empty query, every channel is listed in order. */
  lemma FilteredWhenInactive(cs: seq<Channel>, selected: Option<string>)
    requires !TagActive(selected)
    ensures FilteredChannels(cs, selected, "") == cs
  {
  }

  /** With a tag selected and no query, the list holds the channels carrying it; when no
      channel lists a tag twice, their number is the count the sidebar shows for it. */
  lemma SelectedTagListing(cs: seq<Channel>, t: string)
    requires t != ""
    requires forall k :: 0 <= k < |cs| ==> NoDup(cs[k].tags)
    ensures FilteredChannels(cs, Some(t), "") == ChannelsWithTag(cs, t)
    ensures |FilteredChannels(cs, Some(t), "")| == Occurrences(cs, t)
  {
    OccurrencesCountChannels(cs, t);
  }

  predicate IsDigits(r: string) {
    forall i :: 0 <= i < |r| ==> '0' <= r[i] <= '9'
  }

  /** The number a string of decimal digits denotes, most significant digit first. */
  function DigitsValue(r: string): nat
    requires IsDigits(r)
    decreases |r|
  {
    if r == [] then 0
    else DigitsValue(r[..|r| - 1]) * 10 + (r[|r| - 1] as int - '0' as int)
  }

  /** The decimal digits JavaScript prints for `n`: they denote `n`, with no leading zero. */
  function Decimal(n: nat): (r: string)
    ensures r != [] && IsDigits(r)
    ensures DigitsValue(r) == n
    ensures n > 0 ==> r[0] != '0'
    ensures n == 0 ==> r == "0"
    decreases n
  {
    var digit := ['0' + ((n % 10) as char)];
    assert digit[0] as int - '0' as int == n % 10;
    if n < 10 then
      assert digit[..0] == [];
      digit
    else
      var front := Decimal(n / 10);
      var r := front + digit;
      assert r[..|r| - 1] == front;
      r
  }

  /** `{n} channel{n !== 1 ? 's' : ''}`. */
  function CountLabel(n: nat): (r: string)
    ensures Decimal(n) <= r
    ensures n == 1 ==> r[|Decimal(n)|..] == " channel"
    ensures n != 1 ==> r[|Decimal(n)|..] == " channels"
    ensures r[|r| - 1] == 's' <==> n != 1
  {
    Decimal(n) + " channel" + (if n != 1 then "s" else "")
  }

  const NoMatchesMessage: string := "No channels found matching your criteria."
  const NoChannelsMessage: string := "No channels yet. Add your first channel to get started!"

  /** The empty-state paragraph: shown only for an empty result, with the "no match" text
      when a query or tag is active. */
  function EmptyState(count: nat, query: string, selected: Option<string>): (r: Option<string>)
    ensures r.Some? <==> count == 0
    ensures r == Some(NoMatchesMessage) <==> count == 0 && (query != "" || TagActive(selected))
    ensures r == Some(NoChannelsMessage) <==> count == 0 && query == "" && !TagActive(selected)
  {
    if count != 0 then None
    else if query != "" || TagActive(selected) then Some(NoMatchesMessage)
    else Some(NoChannelsMessage)
  }

  /** With nothing selected and nothing typed, the "no channels yet" text appears exactly
      when there are no channels. */
  lemma EmptyStateWithoutFilters(cs: seq<Channel>, selected: Option<string>)
    requires !TagActive(selected)
    ensures EmptyState(|FilteredChannels(cs, selected, "")|, "", selected) == Some(NoChannelsMessage) <==> cs == []
  {
  }
}
