/** The `Channel` record (components/data-display/ChannelCard.tsx) and the record the form
    hands to the store, which is a channel without its `id` (`Omit<Channel, 'id'>`). */
module Channels {
  import opened Wrappers

  datatype Channel = Channel(
    id: string,
    link: string,
    name: Option<string>,
    tags: seq<string>,
    note: Option<string>,
    favourite: Option<bool>)

  datatype ChannelData = ChannelData(
    link: string,
    name: Option<string>,
    tags: seq<string>,
    note: Option<string>,
    favourite: Option<bool>)

  /** `{ ...data, id }`: the channel made from `data` under identifier `id`. */
  function WithId(data: ChannelData, id: string): (c: Channel)
    ensures c.id == id && c.link == data.link && c.name == data.name
    ensures c.tags == data.tags && c.note == data.note && c.favourite == data.favourite
  {
    Channel(id, data.link, data.name, data.tags, data.note, data.favourite)
  }

  /** The channel without its identifier, as the edit dialog hands it back. */
  function Data(c: Channel): (d: ChannelData)
    ensures WithId(d, c.id) == c
  {
    ChannelData(c.link, c.name, c.tags, c.note, c.favourite)
  }

  /** The identifiers in use. */
  function Ids(cs: seq<Channel>): set<string> {
    set c | c in cs :: c.id
  }

  /** No two channels share an identifier. */
  predicate UniqueIds(cs: seq<Channel>) {
    forall i, j :: 0 <= i < j < |cs| ==> cs[i].id != cs[j].id
  }
}
