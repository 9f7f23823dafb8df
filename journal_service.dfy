/** `JournalService`: the in-memory list of journal entries, mirrored to
    browser storage under one key after every change. The clock and the
    random id generator are parameters of the operations that use them. */
module JournalStore {
  import opened Base
  import opened Seqs
  import opened Ordering
  import opened Journal

  /** The storage key of the entry list. */
  const StorageKey := "bjc:entries"

  class JournalService {
    /** False when rendering on the server, where storage is never touched. */
    const isBrowser: bool
    /** `JSON.stringify` / `JSON.parse` for the entry list. */
    const codec: Codec<seq<Entry>>
    var entries: seq<Entry>
    /** The browser's `localStorage`; this service only uses `StorageKey`. */
    var storage: map<string, string>

    /** In the browser, storage holds exactly the serialised entry list. */
    ghost predicate Mirrored()
      reads this
    {
      isBrowser ==> Lookup(storage, StorageKey) == Some(codec.encode(entries))
    }

    /** The service as constructed: empty on the server; in the browser,
        whatever `load` restores from storage. */
    constructor (isBrowser: bool, storage: map<string, string>, codec: Codec<seq<Entry>>, now: string)
      ensures this.isBrowser == isBrowser && this.codec == codec
      ensures !isBrowser ==> entries == [] && this.storage == storage
      ensures isBrowser ==> entries == Restored(Lookup(storage, StorageKey), codec.decode, now)
      ensures isBrowser && Truthy(Lookup(storage, StorageKey)) ==> this.storage == storage
      ensures isBrowser && !Truthy(Lookup(storage, StorageKey)) ==>
                this.storage == storage[StorageKey := codec.encode(entries)]
    {
      this.isBrowser := isBrowser;
      this.codec := codec;
      entries := [];
      this.storage := storage;
      new;
      Load(now);
    }

    /** `save`: writes the serialised list, in the browser only. */
    method Save()
      modifies this`storage
      ensures storage == if isBrowser then old(storage)[StorageKey := codec.encode(entries)] else old(storage)
      ensures Mirrored()
    {
      if !isBrowser {
        return;
      }
      storage := storage[StorageKey := codec.encode(entries)];
    }

    /** `load`: stored text that parses becomes the list, text that does not
        parse gives the empty list, and no text (or the empty string) gives
        the seed, which is then saved. On the server nothing happens. */
    method Load(now: string)
      modifies this`entries, this`storage
      ensures !isBrowser ==> entries == old(entries) && storage == old(storage)
      ensures isBrowser ==> entries == Restored(Lookup(old(storage), StorageKey), codec.decode, now)
      ensures isBrowser && Truthy(Lookup(old(storage), StorageKey)) ==> storage == old(storage)
      ensures isBrowser && !Truthy(Lookup(old(storage), StorageKey)) ==>
                storage == old(storage)[StorageKey := codec.encode(entries)]
    {
      if !isBrowser {
        return;
      }
      var raw := Lookup(storage, StorageKey);
      if Truthy(raw) {
        match codec.decode(raw.value)
        case Some(parsed) => entries := parsed;
        case None => entries := [];
      } else {
        entries := SeedDemo(now);
        Save();
      }
    }

    /** `getAll`: a copy of the list, newest first; ties keep their stored
        order (see `Ordering.SortStable`). The stored list is not touched. */
    function GetAll(): (r: seq<Entry>)
      reads this
      ensures multiset(r) == multiset(entries)
      ensures Sorted(r, CreatedAt, Descending)
    {
      SortByKey(entries, CreatedAt, Descending)
    }

    /** `getById`: the first entry with that id, if any. */
    function GetById(id: string): (r: Option<Entry>)
      reads this
      ensures r.Some? <==> exists k :: 0 <= k < |entries| && entries[k].id == id
      ensures r.Some? ==> r.value.id == id
      ensures r.Some? ==> exists k :: 0 <= k < |entries| && entries[k] == r.value
                                      && forall j :: 0 <= j < k ==> entries[j].id != id
    {
      var i := IndexOf(entries, id);
      if i < 0 then None else Some(entries[i])
    }

    /** `add`: the new entry, with the generated id and the current time,
        goes in front of the list, which is then saved. */
    method Add(draft: Draft, newId: string, now: string) returns (e: Entry)
      modifies this`entries, this`storage
      ensures e == Create(draft, newId, now)
      ensures entries == [e] + old(entries)
      ensures storage == if isBrowser then old(storage)[StorageKey := codec.encode(entries)] else old(storage)
      ensures Mirrored()
      ensures UniqueIds(old(entries)) && IndexOf(old(entries), newId) == -1 ==> UniqueIds(entries)
    {
      e := Create(draft, newId, now);
      if UniqueIds(entries) && IndexOf(entries, newId) == -1 {
        AddKeepsUnique(entries, draft, newId, now);
      }
      entries := [e] + entries;
      Save();
    }

    /** `update`: merges the patch into the first entry with that id and
        saves; without such an entry, returns `null` and changes nothing. */
    method Update(id: string, patch: Patch, now: string) returns (r: Option<Entry>)
      modifies this`entries, this`storage
      ensures entries == Updated(old(entries), id, patch, now)
      ensures IndexOf(old(entries), id) < 0 ==> r == None && storage == old(storage)
      ensures IndexOf(old(entries), id) >= 0 ==>
                && r == Some(Merge(old(entries)[IndexOf(old(entries), id)], patch, now))
                && storage == (if isBrowser then old(storage)[StorageKey := codec.encode(entries)] else old(storage))
                && Mirrored()
    {
      var i := IndexOf(entries, id);
      if i == -1 {
        return None;
      }
      entries := entries[i := Merge(entries[i], patch, now)];
      Save();
      r := Some(entries[i]);
    }

    /** `remove`: drops every entry with that id and reports whether any was
        there; the list is saved only when it changed. */
    method Remove(id: string) returns (removed: bool)
      modifies this`entries, this`storage
      ensures entries == Filter(old(entries), OtherThan(id))
      ensures removed <==> IndexOf(old(entries), id) >= 0
      ensures !removed ==> entries == old(entries)
      ensures forall k :: 0 <= k < |entries| ==> entries[k].id != id
      ensures storage == if removed && isBrowser then old(storage)[StorageKey := codec.encode(entries)] else old(storage)
      ensures removed ==> Mirrored()
    {
      RemoveSpec(entries, id);
      var before := |entries|;
      entries := Filter(entries, OtherThan(id));
      var after := |entries|;
      if before != after {
        Save();
      }
      removed := before != after;
    }

    /** `toggleComplete`: `null` and no change for an unknown id; otherwise
        `update` with the negated completion flag (absent counts as false). */
    method ToggleComplete(id: string, now: string) returns (r: Option<Entry>)
      modifies this`entries, this`storage
      ensures IndexOf(old(entries), id) < 0 ==> r == None && entries == old(entries) && storage == old(storage)
      ensures IndexOf(old(entries), id) >= 0 ==>
                var was := old(entries)[IndexOf(old(entries), id)];
                && entries == Updated(old(entries), id, TogglePatch(was), now)
                && r == Some(was.(completed := Some(!was.completed.GetOr(false)), updatedAt := Some(now)))
                && storage == (if isBrowser then old(storage)[StorageKey := codec.encode(entries)] else old(storage))
                && Mirrored()
    {
      var e := GetById(id);
      if e.None? {
        return None;
      }
      ToggleFlips(e.value, now, now);
      r := Update(id, TogglePatch(e.value), now);
    }
  }

  /** Storage that mirrors the list restores to that same list. */
  lemma MirrorRestores(storage: map<string, string>, entries: seq<Entry>, codec: Codec<seq<Entry>>, now: string)
    requires Faithful(codec)
    requires Lookup(storage, StorageKey) == Some(codec.encode(entries))
    ensures Restored(Lookup(storage, StorageKey), codec.decode, now) == entries
  {
    RestoreSaved(entries, codec, now);
  }
}
