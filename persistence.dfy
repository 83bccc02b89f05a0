/** The two records app/page.tsx keeps in `localStorage`, with storage as an abstract map
    from key to an already-decoded value. */
module Persistence {
  import opened Channels

  const ChannelsKey: string := "youtube-channels"
  const StandaloneTagsKey: string := "youtube-standalone-tags"

  /** What a key can hold once its JSON text is parsed. */
  datatype Value = ChannelRecord(channels: seq<Channel>) | TagRecord(tags: seq<string>)

  type Storage = map<string, Value>

  /** Each of the application's keys, when present, holds the kind of record it is written
      with: the stored JSON parses to the type the code casts it to. */
  predicate WellFormed(storage: Storage) {
    (ChannelsKey in storage ==> storage[ChannelsKey].ChannelRecord?) &&
    (StandaloneTagsKey in storage ==> storage[StandaloneTagsKey].TagRecord?)
  }

  /** The channels the mount effect installs: the stored ones, else the bundled sample. */
  function LoadChannels(storage: Storage, sample: seq<Channel>): (cs: seq<Channel>)
    requires WellFormed(storage)
    ensures ChannelsKey !in storage ==> cs == sample
    ensures ChannelsKey in storage ==> ChannelRecord(cs) == storage[ChannelsKey]
  {
    if ChannelsKey in storage then storage[ChannelsKey].channels else sample
  }

  /** The standalone tags the mount effect installs: the stored ones, else the initial `[]`. */
  function LoadStandaloneTags(storage: Storage): (tags: seq<string>)
    requires WellFormed(storage)
    ensures StandaloneTagsKey !in storage ==> tags == []
    ensures StandaloneTagsKey in storage ==> TagRecord(tags) == storage[StandaloneTagsKey]
  {
    if StandaloneTagsKey in storage then storage[StandaloneTagsKey].tags else []
  }

  /** The `[channels]` effect: the channel record is written only for a non-empty list. */
  function SaveChannels(storage: Storage, cs: seq<Channel>): (r: Storage)
    ensures WellFormed(storage) ==> WellFormed(r)
    ensures |cs| > 0 ==> ChannelsKey in r && r[ChannelsKey] == ChannelRecord(cs)
    ensures |cs| == 0 ==> r == storage
    ensures forall k :: k in storage && k != ChannelsKey ==> k in r && r[k] == storage[k]
    ensures forall k :: k in r ==> k in storage || k == ChannelsKey
  {
    if |cs| > 0 then storage[ChannelsKey := ChannelRecord(cs)] else storage
  }

  /** The `[standaloneTags]` effect: the standalone record is always written, even when empty. */
  function SaveStandaloneTags(storage: Storage, tags: seq<string>): (r: Storage)
    ensures WellFormed(storage) ==> WellFormed(r)
    ensures StandaloneTagsKey in r && r[StandaloneTagsKey] == TagRecord(tags)
    ensures forall k :: k in storage && k != StandaloneTagsKey ==> k in r && r[k] == storage[k]
    ensures forall k :: k in r ==> k in storage || k == StandaloneTagsKey
  {
    storage[StandaloneTagsKey := TagRecord(tags)]
  }

  /** `storage` holds what the save effects last wrote for this state: the standalone list
      always, the channel list whenever it is non-empty. */
  predicate InSync(storage: Storage, cs: seq<Channel>, standalone: seq<string>) {
    WellFormed(storage) &&
    StandaloneTagsKey in storage && storage[StandaloneTagsKey] == TagRecord(standalone) &&
    (|cs| > 0 ==> ChannelsKey in storage && storage[ChannelsKey] == ChannelRecord(cs))
  }

  /** Writing both records after any change leaves storage in step with the new state. */
  lemma SavesSync(storage: Storage, cs: seq<Channel>, standalone: seq<string>)
    requires WellFormed(storage)
    ensures InSync(SaveStandaloneTags(SaveChannels(storage, cs), standalone), cs, standalone)
  {
  }

  /** Reloading from synchronised storage restores the standalone tags, and the channels
      whenever there is at least one. */
  lemma ReloadRestores(storage: Storage, cs: seq<Channel>, standalone: seq<string>, sample: seq<Channel>)
    requires InSync(storage, cs, standalone)
    ensures LoadStandaloneTags(storage) == standalone
    ensures |cs| > 0 ==> LoadChannels(storage, sample) == cs
  {
  }

  /** An empty channel list is never written: once the last channel is gone, a reload brings
      back the list that was stored before (or the sample, if none was). */
  lemma EmptyListNeverStored(storage: Storage, sample: seq<Channel>)
    requires WellFormed(storage)
    ensures LoadChannels(SaveChannels(storage, []), sample) == LoadChannels(storage, sample)
  {
  }
}
