/** The journal-entry record, the shapes used to create and patch one, and
    the pure operations `JournalService` performs on its list of entries. */
module Journal {
  import opened Base
  import opened Seqs
  import opened Ordering

  /** A journal entry. `kind` is the record's `type`: a string, because the
      journal page also uses the value "emotion" beside task, note, event
      and habit. `updatedAt` is absent until the first update. */
  datatype Entry = Entry(
    id: string,
    kind: string,
    title: string,
    notes: Option<string>,
    completed: Option<bool>,
    date: Option<string>,
    createdAt: string,
    updatedAt: Option<string>,
    tags: Option<seq<string>>)

  /** What `add` takes: an entry without `id`, `createdAt` and `updatedAt`. */
  datatype Draft = Draft(
    kind: string,
    title: string,
    notes: Option<string>,
    completed: Option<bool>,
    date: Option<string>,
    tags: Option<seq<string>>)

  /** What `update` takes: any subset of an entry's fields. An outer `None`
      is a key the patch does not carry; for the optional fields,
      `Some(None)` is a key present with value `undefined`, which the object
      spread copies over the old value. */
  datatype Patch = Patch(
    id: Option<string>,
    kind: Option<string>,
    title: Option<string>,
    notes: Option<Option<string>>,
    completed: Option<Option<bool>>,
    date: Option<Option<string>>,
    createdAt: Option<string>,
    updatedAt: Option<Option<string>>,
    tags: Option<Option<seq<string>>>)

  /** The patch that carries no key at all. */
  const EmptyPatch := Patch(None, None, None, None, None, None, None, None, None)

  /** The entry fields a draft carries. */
  function DraftOf(e: Entry): Draft {
    Draft(e.kind, e.title, e.notes, e.completed, e.date, e.tags)
  }

  /** `{ ...entry, id: uid(), createdAt: now }`. */
  function Create(d: Draft, id: string, now: string): (e: Entry)
    ensures e.id == id && e.createdAt == now && e.updatedAt == None
    ensures DraftOf(e) == d
  {
    Entry(id, d.kind, d.title, d.notes, d.completed, d.date, now, None, d.tags)
  }

  /** The patched value of one field. */
  function Over<T>(patched: Option<T>, previous: T): T {
    if patched.Some? then patched.value else previous
  }

  /** `{ ...e, ...patch, updatedAt: now }`. */
  function Merge(e: Entry, p: Patch, now: string): (r: Entry)
    ensures r.updatedAt == Some(now)
  {
    Entry(Over(p.id, e.id), Over(p.kind, e.kind), Over(p.title, e.title), Over(p.notes, e.notes),
          Over(p.completed, e.completed), Over(p.date, e.date), Over(p.createdAt, e.createdAt),
          Some(now), Over(p.tags, e.tags))
  }

  /** Each key the patch carries overrides the old value, every other field
      keeps its value, and `updatedAt` is the update time even when the patch
      carries one. */
  lemma MergeFields(e: Entry, p: Patch, now: string)
    ensures var r := Merge(e, p, now);
      && (p.id.Some? ==> r.id == p.id.value) && (p.id.None? ==> r.id == e.id)
      && (p.kind.Some? ==> r.kind == p.kind.value) && (p.kind.None? ==> r.kind == e.kind)
      && (p.title.Some? ==> r.title == p.title.value) && (p.title.None? ==> r.title == e.title)
      && (p.notes.Some? ==> r.notes == p.notes.value) && (p.notes.None? ==> r.notes == e.notes)
      && (p.completed.Some? ==> r.completed == p.completed.value)
      && (p.completed.None? ==> r.completed == e.completed)
      && (p.date.Some? ==> r.date == p.date.value) && (p.date.None? ==> r.date == e.date)
      && (p.createdAt.Some? ==> r.createdAt == p.createdAt.value)
      && (p.createdAt.None? ==> r.createdAt == e.createdAt)
      && (p.tags.Some? ==> r.tags == p.tags.value) && (p.tags.None? ==> r.tags == e.tags)
      && r.updatedAt == Some(now)
  {
  }

  /** Applying the same patch at the same time twice is applying it once. */
  lemma MergeIdempotent(e: Entry, p: Patch, now: string)
    ensures Merge(Merge(e, p, now), p, now) == Merge(e, p, now)
  {
  }

  /** An empty patch changes nothing but `updatedAt`. */
  lemma MergeEmpty(e: Entry, now: string)
    ensures Merge(e, EmptyPatch, now) == e.(updatedAt := Some(now))
  {
  }

  /** `entries.findIndex(e => e.id === id)`: the first index holding `id`,
      or -1 when there is none. */
  function IndexOf(s: seq<Entry>, id: string): (i: int)
    ensures -1 <= i < |s|
    ensures i == -1 <==> forall k :: 0 <= k < |s| ==> s[k].id != id
    ensures 0 <= i ==> s[i].id == id && forall k :: 0 <= k < i ==> s[k].id != id
    decreases |s|
  {
    if s == [] then -1
    else if s[0].id == id then 0
    else
      var i := IndexOf(s[1..], id);
      if i == -1 then -1 else i + 1
  }

  /** The entry list after `update(id, patch)` at time `now`: the first entry
      with that id is merged with the patch; without one, nothing changes. */
  function Updated(s: seq<Entry>, id: string, p: Patch, now: string): (r: seq<Entry>)
    ensures |r| == |s|
    ensures forall k :: 0 <= k < |s| && k != IndexOf(s, id) ==> r[k] == s[k]
    ensures IndexOf(s, id) >= 0 ==> r[IndexOf(s, id)] == Merge(s[IndexOf(s, id)], p, now)
  {
    var i := IndexOf(s, id);
    if i < 0 then s else s[i := Merge(s[i], p, now)]
  }

  /** The test `e => e.id !== id` that `remove` filters with. */
  function OtherThan(id: string): Entry -> bool {
    (e: Entry) => e.id != id
  }

  /** After `remove(id)` no entry carries that id, and the list shrank
      exactly when one did. */
  lemma RemoveSpec(s: seq<Entry>, id: string)
    ensures forall k :: 0 <= k < |Filter(s, OtherThan(id))| ==> Filter(s, OtherThan(id))[k].id != id
    ensures |Filter(s, OtherThan(id))| < |s| <==> IndexOf(s, id) >= 0
    ensures IsSubsequence(Filter(s, OtherThan(id)), s)
    ensures IndexOf(s, id) < 0 ==> Filter(s, OtherThan(id)) == s
  {
    FilterShrinks(s, OtherThan(id));
    FilterIsSubsequence(s, OtherThan(id));
    if IndexOf(s, id) < 0 {
      FilterKeepsAll(s, OtherThan(id));
    }
  }

  /** The patch `toggleComplete` hands to `update`: `{ completed: !e.completed }`,
      where an absent flag counts as false. */
  function TogglePatch(e: Entry): Patch {
    EmptyPatch.(completed := Some(Some(!e.completed.GetOr(false))))
  }

  /** Toggling negates the completion flag, stamps the time, and touches
      nothing else; toggling twice restores the flag. */
  lemma ToggleFlips(e: Entry, now: string, later: string)
    ensures Merge(e, TogglePatch(e), now).completed == Some(!e.completed.GetOr(false))
    ensures Merge(e, TogglePatch(e), now) == e.(completed := Some(!e.completed.GetOr(false)), updatedAt := Some(now))
    ensures var t := Merge(e, TogglePatch(e), now);
      Merge(t, TogglePatch(t), later).completed == Some(e.completed.GetOr(false))
  {
  }

  /** No two entries share an id. */
  predicate UniqueIds(s: seq<Entry>) {
    forall i, j :: 0 <= i < j < |s| ==> s[i].id != s[j].id
  }

  /** `add` keeps ids unique when the generated id is fresh. */
  lemma AddKeepsUnique(s: seq<Entry>, d: Draft, id: string, now: string)
    requires UniqueIds(s)
    requires IndexOf(s, id) == -1
    ensures UniqueIds([Create(d, id, now)] + s)
  {
    var r := [Create(d, id, now)] + s;
    forall i, j | 0 <= i < j < |r| ensures r[i].id != r[j].id {
      if i > 0 {
        assert r[i] == s[i - 1] && r[j] == s[j - 1];
      } else {
        assert r[j] == s[j - 1];
      }
    }
  }

  /** `update` keeps ids unique when the patch does not carry an id. */
  lemma UpdateKeepsUnique(s: seq<Entry>, id: string, p: Patch, now: string)
    requires UniqueIds(s)
    requires p.id.None?
    ensures UniqueIds(Updated(s, id, p, now))
  {
  }

  /** Filtering, and so `remove`, keeps ids unique. */
  lemma {:induction false} FilterKeepsUnique(s: seq<Entry>, keep: Entry -> bool)
    requires UniqueIds(s)
    ensures UniqueIds(Filter(s, keep))
    decreases |s|
  {
    if s != [] {
      var rest := Filter(s[1..], keep);
      FilterKeepsUnique(s[1..], keep);
      forall x | x in rest ensures x.id != s[0].id {
        FilterMembers(s[1..], keep, x);
        var k :| 0 <= k < |s[1..]| && s[1..][k] == x;
        assert s[k + 1] == x;
      }
      var r := Filter(s, keep);
      if keep(s[0]) {
        assert r == [s[0]] + rest;
        forall i, j | 0 <= i < j < |r| ensures r[i].id != r[j].id {
          assert r[j] == rest[j - 1];
          assert r[j] in rest;
          if i > 0 {
            assert r[i] == rest[i - 1];
          }
        }
      }
    }
  }

  /** The order `getAll` returns: newest `createdAt` first. */
  function CreatedAt(e: Entry): string {
    e.createdAt
  }

  /** `new Date().toISOString().slice(0, 10)`: the date part of a timestamp. */
  function DatePart(now: string): string {
    Take(now, 10)
  }

  /** The three demonstration entries stored on first use. */
  function SeedDemo(now: string): (r: seq<Entry>)
    ensures |r| == 3 && UniqueIds(r)
    ensures forall k :: 0 <= k < 3 ==> r[k].createdAt == now && r[k].updatedAt.None?
  {
    [ Entry("1", "task", "Morning run", Some("3 km around park"), Some(false), Some(DatePart(now)), now, None, Some(["health"])),
      Entry("2", "note", "Ideas for app", Some("Add monthly review view"), None, None, now, None, Some(["brainstorm"])),
      Entry("3", "event", "Doctor appointment", Some("2pm clinic"), None, Some(DatePart(now)), now, None, Some(["health"])) ]
  }

  /** The entries `load` ends with, given the stored text under the entries
      key: the seed when nothing (or the empty string) is stored, the parsed
      list when it parses, and the empty list when it does not. */
  function Restored(raw: Option<string>, decode: string -> Option<seq<Entry>>, now: string): seq<Entry> {
    if Truthy(raw) then decode(raw.value).GetOr([]) else SeedDemo(now)
  }

  /** Reloading what `save` wrote gives back the saved list. */
  lemma RestoreSaved(s: seq<Entry>, codec: Codec<seq<Entry>>, now: string)
    requires Faithful(codec)
    ensures Restored(Some(codec.encode(s)), codec.decode, now) == s
  {
  }

  /** Stored text that does not parse restores to the empty list. */
  lemma RestoreUnparsable(raw: string, decode: string -> Option<seq<Entry>>, now: string)
    requires raw != "" && decode(raw).None?
    ensures Restored(Some(raw), decode, now) == []
  {
  }
}
