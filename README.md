# YouTube channel organizer — a Dafny model

This project models the core of the youtube-channel-organizer web app. The app keeps a list of
channel bookmarks that the user tags freely, browses by tag and searches by text. Everything is
kept in the browser's `localStorage`. The model covers:

- **the store** of the `Home` page (`app/page.tsx`): the channels, the standalone tags (tags created
  before any channel uses them) and the selected tag. It is a class whose methods are the page's
  handlers. Beside it are:
  - the pure updaters those handlers apply;
  - the derived tag index: `allTags`, sorted, and `tagCounts`, built by the same two loops as the
    source;
  - the write policy of the two storage records.
- **the channel list filter**: the tag filter, the case-insensitive search, the count line and the
  empty-state text.
- **the channel form**: tag add/remove, the suggestion list, the "Create" option, the edit
  initialisation and the normalisation of the submitted record.
- **the sidebar**: the create and rename guards, the rename input state and the count shown next
  to each tag.
- **the theme button**: its three-way cycle and its tooltip.

Modules, one per file:

| module | file | role |
|---|---|---|
| `Wrappers` | wrappers.dfy | `Option` |
| `Seqs` | seqs.dfy | `map`/`filter` over sequences and their laws |
| `Text` | text.dfy | JavaScript `trim`, `toLowerCase`, `includes`, and the default sort order |
| `Sorting` | sorting.dfy | `Array.prototype.sort` on a set's contents |
| `Channels` | channels.dfy | the `Channel` record |
| `TagIndex` | tag_index.dfy | `allTags`, `tagCounts` and the used-tags set |
| `Persistence` | persistence.dfy | the two storage records |
| `ChannelStore` | store.dfy | the store and its consistency |
| `ChannelList` | channel_list.dfy | the list filter and its texts |
| `ChannelForm` | channel_form.dfy | the add/edit dialog |
| `Sidebar` | sidebar.dfy | the sidebar's input state and guards |
| `Theme` | theme.dfy | the theme button |

**Coherence.** The central invariant is `ChannelStore.Coherent`:

- no standalone tag is used by a channel;
- the standalone list has no duplicates;
- no channel lists a tag twice;
- no two channels share an id.

Every handler preserves it. For rename, this needs the precondition that the sidebar's guard
supplies: the new name is not already a tag (`Sidebar.RenameGuardIsSafe`). For saves, it needs
two hypotheses about the caller's input: the saved tags have no duplicates, and the id of a new
channel is not already in use.

**Behaviour worth knowing.** Each point is a fact about the code:

- **Counts are occurrences.** `counts[tag] = (counts[tag] || 0) + 1` runs once per entry of a tag
  list (app/page.tsx:53-56). So `tagCounts` counts occurrences, not the channels holding a tag.
  The two agree when no channel lists a tag twice (`TagIndex.OccurrencesCountChannels`). A rename
  that merges two tags in one channel makes them differ (`ChannelStore.MergingRenameCountsTwice`).
- **Editing a missing channel.** While editing, the save maps over the channels and replaces
  those with the edited id (app/page.tsx:93-97). If that id is gone, nothing is replaced and
  nothing is appended (`ChannelStore.EditMissingChannel`). The standalone list is still pruned.
- **Pruning.** The used-tags set is built from `channels`, the list as it was before the save, plus
  the saved record's tags (app/page.tsx:107-114). Every standalone tag left is unused afterwards
  (`ChannelStore.SaveSeparates`). A standalone tag used only by the old version of an edited
  channel would be dropped too, but a coherent store has no such tag.
- **Storage on mount.** The load effect installs the stored channels, or the sample data
  (app/page.tsx:20-32). The save effects then write them back whenever there is at least one
  (app/page.tsx:36-40). The standalone record is always written (app/page.tsx:43-45)
  (`ChannelStore.Store.Initialize`).
- **Empty links.** `handleSaveChannel` checks nothing (app/page.tsx:90-105). Only the form refuses
  a blank link (components/data-display/ChannelForm.tsx:84), so the store accepts any record
  (`ChannelForm.Submission`).
- **Decode errors.** The stored records go through `JSON.parse` without a `try`
  (app/page.tsx:24-31). A record that fails to parse is therefore not treated as absent. The
  model assumes each stored record has its expected type (`Persistence.WellFormed`).
- **Standalone tags are a list,** not a set (app/page.tsx:17). The store itself does not keep
  duplicates out. Two guards do: `handleCreateTag` appends only a name that is not yet a tag
  (app/page.tsx:120-124), and the sidebar renames only to a name that is not yet a tag
  (components/layout/Sidebar.tsx:41-43). Without the second guard, the rename at app/page.tsx:134
  turns `["a", "b"]` into `["b", "b"]` when "a" is renamed to "b" (`Sidebar.RenameGuardIsSafe`,
  `ChannelStore.RenameTagsNoDup`).
- **Enter on a blank tag input submits the form.** The key handler cancels the key's default
  action only when the trimmed input is non-empty (components/data-display/ChannelForm.tsx:75-80).
  Otherwise the input's Enter submits the form through its submit button (line 208), when the
  link field passes the browser's validation (`ChannelForm.Form.PressEnter`).
- **The browser validates the link first.** The link input is a required `type="url"` field
  (components/data-display/ChannelForm.tsx:102,106), and the form does not disable validation
  (line 96). So a submit click or Enter with a link the browser rejects fires no submit event,
  and `handleSubmit` never runs. The browser's verdict is the `linkValid` parameter of
  `ChannelForm.Form.Submit` (`ChannelForm.Form.PressEnter`, `ChannelForm.Form.SubmitFromBlankInput`).

**Deleting the last channel is not persisted.** An empty channel list is never written, so after
the last channel is deleted a reload brings it back (`ChannelStore.DeletingLastChannelIsNotPersisted`).

## Model

| member | source | states |
|---|---|---|
| Channels.WithId | app/page.tsx:93-103 | the saved channel carries the record's fields under the given id |
| Channels.Data | components/data-display/ChannelCard.tsx:5-12 | a channel is its record plus its id: re-attaching the id gives the channel back |
| Text.Trim | components/data-display/ChannelForm.tsx:58 | no white space at either end of the result; the result is empty iff the input is all white space |
| Text.TrimIsSlice | components/data-display/ChannelForm.tsx:58 | the result is exactly the input between two cut points, with only white space before the first and from the second on |
| Text.TrimIdempotent | components/data-display/ChannelForm.tsx:76-78 | trimming an already trimmed text changes nothing, so the Enter key's double trim is one trim |
| Text.Lower | components/list/ChannelList.tsx:40 | length is kept and each character is lowered on its own |
| Text.ContainsAt | components/list/ChannelList.tsx:42-44 | `includes` holds iff the query starts at some position of the text |
| Sorting.Sort | app/page.tsx:69 | the result is a permutation of the input, strictly ascending when the input has no duplicates |
| Sorting.StrictlySortedNoDup | app/page.tsx:69 | a strictly ascending tag list has no duplicates |
| Sorting.StrictlySortedUnique | app/page.tsx:69 | the sorted tag list depends only on the set of tags, not on the order they were collected in |
| Sorting.SortKeepsElements | app/page.tsx:69 | the sorted list holds exactly the elements of the tag set |
| TagIndex.UsedTags | app/page.tsx:108-112 | a tag is used iff some channel's tag list holds it |
| TagIndex.Occurrences | app/page.tsx:53-58 | a tag's occurrence count is positive iff some channel uses it |
| TagIndex.ChannelsWithTag | components/list/ChannelList.tsx:33-35 | every channel kept holds the tag |
| TagIndex.OccurrencesCountChannels | app/page.tsx:54-57 | when no channel lists a tag twice, its count is the number of channels holding it |
| TagIndex.ComputeTagIndex | app/page.tsx:48-72 | `allTags` is strictly sorted and duplicate-free and holds exactly the used and standalone tags; `tagCounts` has one key per tag, holding its occurrences, so a standalone-only tag is 0 and a non-zero count is never overwritten |
| TagIndex.CountChannelTags | app/page.tsx:52-58 | the first pass collects every used tag exactly once, each with its occurrence count |
| TagIndex.TallyTags | app/page.tsx:54-57 | one channel's pass adds its tags to the set and adds its occurrences to each count |
| TagIndex.AddAllSpec | app/page.tsx:52-61 | adding tags one by one to a duplicate-free set keeps it duplicate-free and yields the old members and the tags |
| TagIndex.TallySpec | app/page.tsx:55 | tallying a tag list adds each tag's number of occurrences to its starting count, and gives every tag a key |
| TagIndex.ZeroFillSpec | app/page.tsx:62-64 | the standalone pass gives every tag a key and leaves every existing count unchanged, so a standalone-only tag counts 0 |
| TagIndex.AddStandaloneTags | app/page.tsx:60-65 | the second loop adds each standalone tag to the set and zero-fills its count, as `AddAll` and `ZeroFill` describe |
| TagIndex.CollectUsedTags | app/page.tsx:108-112 | the set built is the pre-save channels' tags together with the saved tags |
| TagIndex.AddEach | app/page.tsx:109-112 | adding each tag of a list to a set yields the set together with the list's elements |
| Persistence.LoadChannels | app/page.tsx:21-28 | the stored channels when the key is present, else the sample data |
| Persistence.LoadStandaloneTags | app/page.tsx:30-32 | the stored standalone tags when the key is present, else the empty list |
| Persistence.SaveChannels | app/page.tsx:36-40 | the channel record is set to the list when it is non-empty; otherwise storage is untouched; no other key changes |
| Persistence.SaveStandaloneTags | app/page.tsx:43-45 | the standalone record is always set, even to the empty list; no other key changes |
| Persistence.SavesSync | app/page.tsx:35-45 | after both effects run, storage holds the current standalone list, and the channels whenever there is at least one |
| Persistence.ReloadRestores | app/page.tsx:20-45 | reloading synchronised storage restores the standalone tags, and the channels when non-empty |
| Persistence.EmptyListNeverStored | app/page.tsx:36-40 | saving an empty channel list leaves what a reload sees unchanged |
| ChannelStore.WithoutChannel | app/page.tsx:86 | an order-preserving subsequence with no channel of that id, keeping every other channel as often as it occurred |
| ChannelStore.SavedChannels | app/page.tsx:91-105 | editing replaces each channel of the edited id by the record under that id, in place; a new channel is appended at the end |
| ChannelStore.Prune | app/page.tsx:114 | an order-preserving subsequence without the used tags, keeping every unused one as often as it occurred |
| ChannelStore.CreatedStandalone | app/page.tsx:120-124 | the name is appended iff it is not yet a tag; either way the tag set grows by exactly the name |
| ChannelStore.RenameTags | app/page.tsx:134 | same length; the old name becomes the new one at every position, other tags stay |
| ChannelStore.RenameInChannels | app/page.tsx:128-131 | same channels in the same order, only their tag lists renamed |
| ChannelStore.DropTag | app/page.tsx:150 | an order-preserving subsequence without the tag, keeping every other tag as often as it occurred |
| ChannelStore.DropTagEverywhere | app/page.tsx:144-147 | same channels in the same order, with the tag removed from each tag list |
| ChannelStore.SavedTagsBound | app/page.tsx:91-105 | a save uses no tag beyond the old channels' tags and the saved tags |
| ChannelStore.SaveSeparates | app/page.tsx:107-114 | after any save no standalone tag is used by a channel |
| ChannelStore.SavePreservesCoherence | app/page.tsx:90-114 | a save keeps the store coherent when the saved tags have no duplicates and a new id is unused |
| ChannelStore.FilterKeepsIdsUnique | app/page.tsx:86 | removing channels keeps ids distinct |
| ChannelStore.DeleteChannelPreservesCoherence | app/page.tsx:84-88 | deleting a channel keeps the store coherent |
| ChannelStore.CreateTagPreservesCoherence | app/page.tsx:120-124 | creating a tag keeps the standalone list duplicate-free and disjoint from used tags |
| ChannelStore.RenameTagsElems | app/page.tsx:130 | after a rename a list holds the new name iff it held the old one, and any other name iff it held it before |
| ChannelStore.RenameTagsNoDup | app/page.tsx:130 | renaming to a name not in a duplicate-free list keeps it duplicate-free |
| ChannelStore.RenameUsedTags | app/page.tsx:128-131 | which tags the channels use after a rename, in terms of those used before |
| ChannelStore.RenamePreservesCoherence | app/page.tsx:126-134 | renaming to a name that is not yet a tag keeps the store coherent |
| ChannelStore.DeleteTagPreservesCoherence | app/page.tsx:142-150 | deleting a tag keeps the store coherent |
| ChannelStore.DropTagUsedTags | app/page.tsx:144-147 | removing a tag from every channel removes exactly that tag from the tags in use |
| ChannelStore.DeleteChannelIdempotent | app/page.tsx:86 | deleting an id twice equals deleting it once |
| ChannelStore.DeleteAbsentChannel | app/page.tsx:86 | deleting an absent id changes nothing |
| ChannelStore.DeleteChannelRemovesOne | app/page.tsx:86 | with distinct ids, deleting a channel removes exactly that entry and keeps the rest in order |
| ChannelStore.EditMissingChannel | app/page.tsx:93-97 | editing a channel whose id is gone leaves the channel list unchanged |
| ChannelStore.EditReplacesOne | app/page.tsx:93-97 | with distinct ids, an edit replaces exactly that entry, at its position, keeping its id |
| ChannelStore.AddThenEdit | app/page.tsx:91-105 | saving a new channel and then editing it leaves one channel under its original id |
| ChannelStore.RenameTagsInverse | app/page.tsx:134 | renaming back undoes a rename to a name not in the list |
| ChannelStore.RenameRetargets | app/page.tsx:126-134 | after a rename the old name is no tag; the new one is a tag iff the old or the new one was |
| ChannelStore.RenameMovesOccurrences | app/page.tsx:126-131 | under the sidebar's guard the new name gets exactly the old name's occurrences and the old name none |
| ChannelStore.RenameOccurrences | app/page.tsx:128-131 | the occurrence count carries over from the old name to the new one |
| ChannelStore.RenameInChannelsSnoc | app/page.tsx:128-131 | renaming distributes over appending a channel |
| ChannelStore.RenameCounts | app/page.tsx:130 | in one tag list the new name occurs as often as the old one did, and the old one not at all |
| ChannelStore.MergingRenameCountsTwice | app/page.tsx:126-131 | without the guard a rename can merge two tags: a channel then counts twice for one tag |
| ChannelStore.DeleteTagRemovesIt | app/page.tsx:142-150 | after deleting a tag, the tag set is the old one minus exactly that tag |
| ChannelStore.DeletingLastChannelIsNotPersisted | app/page.tsx:36-40 | deleting the only channel leaves it in storage, so a reload restores it |
| ChannelStore.CreateInEmptyStore | app/page.tsx:120-124 | creating "gaming" in an empty store gives `allTags` ["gaming"] with count 0 |
| ChannelStore.DeleteTechScenario | app/page.tsx:142-150 | deleting "tech" from ["gaming", "tech"] leaves ["gaming"] |
| ChannelStore.Store.Initialize | app/page.tsx:19-45 | the loaded (or sample) channels and stored standalone tags, no selection, both records written back |
| ChannelStore.Store.DeleteChannel | app/page.tsx:84-88 | the channels lose that id; only the channel record is written; coherence is kept |
| ChannelStore.Store.SaveChannel | app/page.tsx:90-118 | channels and pruned standalone tags as the updaters give them, both records written, no standalone tag used, coherence kept under its hypotheses |
| ChannelStore.Store.CreateTag | app/page.tsx:120-124 | the name is appended and written iff it is not in `allTags`; otherwise nothing changes |
| ChannelStore.Store.RenameTag | app/page.tsx:126-140 | channels and standalone tags renamed, selection follows the renamed tag, both records written |
| ChannelStore.Store.DeleteTag | app/page.tsx:142-156 | the tag leaves every channel and the standalone list, the selection clears iff it was that tag, both records written |
| ChannelStore.Store.SelectTag | app/page.tsx:162 | the selection becomes the given tag; nothing else changes |
| ChannelList.Matching | components/list/ChannelList.tsx:39-46 | every channel kept matches the lowercased query |
| ChannelList.FilteredChannels | components/list/ChannelList.tsx:28-49 | with a tag selected every result holds it; with a query every result matches it |
| ChannelList.FilteredIsOneFilter | components/list/ChannelList.tsx:29-48 | the tag filter followed by the search is one filter on the conjunction |
| ChannelList.FilteredIsSubsequence | components/list/ChannelList.tsx:28-49 | the result is an order-preserving subsequence of the channels |
| ChannelList.FilteredMembership | components/list/ChannelList.tsx:28-49 | a channel is listed iff it is a channel, holds the selected tag if one is active, and matches the query if one is typed |
| ChannelList.FilteredWhenInactive | components/list/ChannelList.tsx:32-39 | no selection and an empty query list every channel in order |
| ChannelList.SelectedTagListing | components/list/ChannelList.tsx:32-36 | selecting a tag lists the channels holding it, as many as the sidebar counts when no channel lists it twice |
| ChannelList.Decimal | components/list/ChannelList.tsx:60 | a non-empty string of decimal digits whose value is the number, with no leading zero ("0" for zero) |
| ChannelList.CountLabel | components/list/ChannelList.tsx:60 | the label is the number's decimal digits followed by " channel" for 1 and " channels" otherwise |
| ChannelList.EmptyState | components/list/ChannelList.tsx:186-194 | shown iff the list is empty; "No channels found…" iff a query or tag is active, otherwise "No channels yet…" |
| ChannelList.EmptyStateWithoutFilters | components/list/ChannelList.tsx:186-194 | with no filter active, "No channels yet…" shows iff there are no channels |
| ChannelForm.FormFromChannel | components/data-display/ChannelForm.tsx:32-42 | the channel's fields, with absent name and note as "" and favourite checked iff it was true |
| ChannelForm.OptionalText | components/data-display/ChannelForm.tsx:88-90 | absent iff the text is all white space, otherwise the trimmed, non-empty text |
| ChannelForm.Submission | components/data-display/ChannelForm.tsx:82-93 | nothing is saved iff the trimmed link is empty; otherwise the trimmed link, optional trimmed name and note, and tags and favourite as they are |
| ChannelForm.SubmissionNormalised | components/data-display/ChannelForm.tsx:84-92 | every submitted record has a trimmed non-empty link and trimmed non-empty or absent name and note |
| ChannelForm.EditRoundTrip | components/data-display/ChannelForm.tsx:32-42 | editing a normalised channel and submitting unchanged saves the same record |
| ChannelForm.ResubmitUnchanged | components/data-display/ChannelForm.tsx:32-93 | submitting, reopening the result and submitting again yields the same record |
| ChannelForm.Suggestions | components/data-display/ChannelForm.tsx:45-55 | empty for an empty input; otherwise an order-preserving subsequence of the existing tags that keeps each offered tag as often as it is listed and no other tag |
| ChannelForm.SuggestionsAreOffered | components/data-display/ChannelForm.tsx:45-55 | for a non-empty input a tag is suggested iff it is an existing tag that contains the input case-insensitively and is not chosen |
| ChannelForm.CreateOptionIsAccepted | components/data-display/ChannelForm.tsx:166-169 | when the "Create" option shows, clicking it adds the trimmed input |
| ChannelForm.SuggestionIsAccepted | components/data-display/ChannelForm.tsx:156-160 | clicking a suggestion with no surrounding white space adds it |
| ChannelForm.Form.constructor | components/data-display/ChannelForm.tsx:21-42 | an empty form, or the edited channel's fields; empty input and suggestions |
| ChannelForm.Form.SetNewTag | components/data-display/ChannelForm.tsx:45-55 | the input is set and the suggestions recomputed for it |
| ChannelForm.Form.AddTag | components/data-display/ChannelForm.tsx:57-66 | the trimmed tag is appended and the input cleared iff it is non-empty and new; otherwise tags and input stay; no duplicates are introduced |
| ChannelForm.Form.PressEnter | components/data-display/ChannelForm.tsx:75-93 | on a non-blank input Enter adds the trimmed input under the rule of `handleAddTag` and submits nothing; on a blank input it hands on nothing when the browser rejects the link, and otherwise what `handleSubmit` would |
| ChannelForm.Form.AddTrimmedInput | components/data-display/ChannelForm.tsx:76-79 | adding the trimmed input has the outcome `handleAddTag` gives for the input itself |
| ChannelForm.Form.SubmitFromBlankInput | components/data-display/ChannelForm.tsx:82-93 | a blank input adds nothing; the record handed on is nothing when the browser rejects the link, otherwise the form's submission |
| ChannelForm.Form.RemoveTag | components/data-display/ChannelForm.tsx:68-73 | every occurrence of the tag is removed and the others kept in order |
| ChannelForm.Form.Submit | components/data-display/ChannelForm.tsx:82-106 | nothing when the browser's validation rejects the link; otherwise the record `handleSubmit` hands to `onSave`, if any, and that it is normalised |
| Sidebar.DisplayedCount | components/layout/Sidebar.tsx:164 | the recorded count, or 0 when the tag has none |
| Sidebar.DisplayedCountIsOccurrences | components/layout/Sidebar.tsx:164 | the number shown for any tag is its occurrence count across the channels |
| Sidebar.CreateGuardAppends | components/layout/Sidebar.tsx:33-39 | a name the guard accepts is always appended by the store |
| Sidebar.RenameGuardIsSafe | components/layout/Sidebar.tsx:41-43 | under the guard the store's rename keeps coherence and moves every occurrence, merging nothing |
| Sidebar.UneditedRenameRefused | components/layout/Sidebar.tsx:42 | confirming the rename input without editing never renames |
| Sidebar.SidebarState.constructor | components/layout/Sidebar.tsx:28-31 | not creating, not editing, both inputs empty |
| Sidebar.SidebarState.OpenCreate | components/layout/Sidebar.tsx:115 | the create input opens |
| Sidebar.SidebarState.CancelCreate | components/layout/Sidebar.tsx:103-106 | the create input closes and empties |
| Sidebar.SidebarState.CreateTag | components/layout/Sidebar.tsx:33-39 | the trimmed name is handed on, the input cleared and closed, iff the guard passes; otherwise nothing changes |
| Sidebar.SidebarState.StartEditing | components/layout/Sidebar.tsx:52-55 | the rename input opens on the tag, prefilled with it |
| Sidebar.SidebarState.CancelEditing | components/layout/Sidebar.tsx:144-147 | the rename input closes and empties |
| Sidebar.SidebarState.RenameTag | components/layout/Sidebar.tsx:41-50 | the rename request is issued iff the guard passes; the rename input always closes and empties |
| Theme.NextTheme | components/core/ThemeToggle.tsx:16-24 | light goes to dark, dark to system, anything else to light |
| Theme.Title | components/core/ThemeToggle.tsx:42-46 | the tooltip names the theme the next toggle switches to |
| Theme.NextThemeIsKnown | components/core/ThemeToggle.tsx:16-24 | a toggle always lands on one of the three themes |
| Theme.ThreeTogglesCycle | components/core/ThemeToggle.tsx:16-24 | three toggles from any of the three themes return to it |
| Theme.UnknownThemeJoinsCycle | components/core/ThemeToggle.tsx:21-22 | any other value goes to light and then stays in the cycle |
| Theme.ThemeToggle.constructor | components/core/ThemeToggle.tsx:9 | the button starts from the provider's theme |
| Theme.ThemeToggle.Toggle | components/core/ThemeToggle.tsx:16-24 | the theme becomes the next one, the one the tooltip announced |

## Left out

- JSON encoding and decoding of the two storage records: storage is a map from key to an already decoded value, so a stored string that is empty or fails to parse is not modelled.
- `Store.Initialize` is the state after the load effect and the save effects have run. The intermediate writes are not modelled. On the first render the standalone effect writes the initial empty list before the load's state update takes effect. When a standalone record was stored, the load has already read it, and the next render writes it back. When none was stored, that empty list is what stays. Either way the final storage is the one modelled.
- React scheduling, state batching and `useMemo`: each handler is one atomic step on the state it closes over. The suggestion effect runs as the last step of each form method.
- The `Date.now()` id: the new id is a parameter, and its freshness is a hypothesis of the coherence lemmas.
- The `confirm()` prompts of channel and tag deletion: only the accepted branch is modelled.
- Text.Lower: lowers only `A`–`Z`, because Unicode case mapping is not modelled.
- Text.Trim: removes ECMAScript's white-space and line-terminator code points as listed in `Text.IsSpace`; a future Unicode space separator is not covered.
- The default sort compares UTF-16 code units. `Text.Below` compares Dafny characters, which agree with UTF-16 for characters of the Basic Multilingual Plane.
- `tagCounts` is a JavaScript object: a tag named after an inherited property such as `constructor` reads a non-number before it is set. The model's `map` has no inherited keys.
- The bundled sample data is a parameter of `Initialize`.
- Dialog open/close state of the page (`isModalOpen`, `editingChannel`): `editing` is a parameter of `SaveChannel`.
- The field setters of the form (link, name, note, favourite inputs) and of the sidebar inputs other than the ones modelled: plain assignments.
- `getIcon`, the `mounted` flag, `matchMedia` and the theme provider of `ThemeToggle.tsx`: rendering and browser state.
- Rendering: headings, cards, list view, badges, icons and layout.
- ChannelForm.Form.Submit, ChannelForm.Form.PressEnter, ChannelForm.Form.SubmitFromBlankInput: the browser's constraint validation of the required `type="url"` link field (URL syntax and the `required` check) is not modelled. Its verdict comes in as the `linkValid` parameter.
