/** The persisted per-server boost history, standing in for the
    `gameserver-boosts` table. */
module HistoryStore {
  import opened Boosts

  /** One stored item. `boosts == None` is an item that has no `boosts`
      attribute; the boosts are kept in discovery order. */
  datatype Record = Record(boosts: Option<seq<Boost>>)

  /** The boosts stored for `id`, or none when there is no item or it has
      no `boosts` attribute. */
  function StoredBoosts(records: map<int, Record>, id: int): seq<Boost> {
    if id in records && records[id].boosts.Some? then records[id].boosts.value else []
  }

  /** An in-memory table keyed by server id, with a counter of the write
      calls made against it. */
  class Store {
    var records: map<int, Record>
    var writes: nat

    constructor (initial: map<int, Record>)
      ensures records == initial && writes == 0
    {
      records := initial;
      writes := 0;
    }

    /** The item stored under `id`, if any. */
    function Get(id: int): (item: Option<Record>)
      reads this
      ensures item.Some? <==> id in records
      ensures item.Some? ==> item.value == records[id]
    {
      if id in records then Some(records[id]) else None
    }

    /** Creates the item for `id` with the given boosts. */
    method Create(id: int, boosts: seq<Boost>)
      modifies this
      ensures records == old(records)[id := Record(Some(boosts))]
      ensures writes == old(writes) + 1
    {
      records := records[id := Record(Some(boosts))];
      writes := writes + 1;
    }

    /** Replaces the `boosts` attribute of the item for `id` (creating the
        item if it is absent). */
    method SetBoosts(id: int, boosts: seq<Boost>)
      modifies this
      ensures records == old(records)[id := Record(Some(boosts))]
      ensures writes == old(writes) + 1
    {
      records := records[id := Record(Some(boosts))];
      writes := writes + 1;
    }
  }
}
