/** The journal page: the entry form, the filtered and searched list, the
    statistics panel and the icon and colour of each entry type. It reads
    and changes entries only through `JournalService`. */
module JournalPage {
  import opened Base
  import opened Text
  import opened Seqs
  import opened Ordering
  import opened Journal
  import opened JournalStore

  /** The form's five controls; `None` is a control holding `null`. */
  datatype Form = Form(
    kind: Option<string>,
    title: Option<string>,
    notes: Option<string>,
    date: Option<string>,
    tags: Option<string>)

  /** The form as first built: type "task", every other control empty. */
  const InitialForm := Form(Some("task"), Some(""), Some(""), Some(""), Some(""))

  /** The form after `reset({ type: 'task' })`: every other control null. */
  const ResetForm := Form(Some("task"), None, None, None, None)

  /** The validators: a type is required, and a title of at least two
      UTF-16 code units. */
  predicate FormValid(f: Form) {
    Truthy(f.kind) && f.title.Some? && Utf16Length(f.title.value) >= 2
  }

  /** A tag as the form produces it: non-empty, without white space at
      either end and without a comma. */
  predicate CleanTag(t: string) {
    t != "" && Trim(t) == t && ',' !in t
  }

  /** Every tag in the list is clean. */
  predicate AllClean(tags: seq<string>) {
    forall i :: 0 <= i < |tags| ==> CleanTag(tags[i])
  }

  /** The test `Boolean` that drops empty pieces. */
  function NonEmpty(): string -> bool {
    (t: string) => t != ""
  }

  /** Trimming comma-free pieces and dropping the empty ones leaves clean
      tags. */
  lemma {:induction false} CleanPieces(parts: seq<string>)
    requires forall i :: 0 <= i < |parts| ==> ',' !in parts[i]
    ensures AllClean(Filter(Map(parts, Trim), NonEmpty()))
    decreases |parts|
  {
    if parts != [] {
      var m := Map(parts, Trim);
      var rest := Filter(Map(parts[1..], Trim), NonEmpty());
      CleanPieces(parts[1..]);
      assert m[1..] == Map(parts[1..], Trim);
      if m[0] != "" {
        TrimmedPieceClean(parts[0]);
        CleanCons(m[0], rest);
      }
    }
  }

  /** A comma-free piece that does not trim to nothing trims to a clean tag. */
  lemma TrimmedPieceClean(piece: string)
    requires ',' !in piece && Trim(piece) != ""
    ensures CleanTag(Trim(piece))
  {
    TrimIdempotent(piece);
    TrimWithin(piece);
  }

  /** A clean tag in front of clean tags. */
  lemma CleanCons(head: string, rest: seq<string>)
    requires CleanTag(head) && AllClean(rest)
    ensures AllClean([head] + rest)
  {
  }

  /** `raw.split(',').map(t => t.trim()).filter(Boolean)`. */
  function TagsOf(raw: string): (r: seq<string>)
    ensures AllClean(r)
    ensures |r| <= |Split(raw, ',')|
  {
    CleanPieces(Split(raw, ','));
    Filter(Map(Split(raw, ','), Trim), NonEmpty())
  }

  /** Clean tags, padded as `join(', ')` pads them, trim back to themselves. */
  lemma TrimPaddedTags(tags: seq<string>)
    requires AllClean(tags)
    ensures Map(PadTail(tags, " "), Trim) == tags
  {
    var padded := PadTail(tags, " ");
    forall i | 0 <= i < |tags| ensures Trim(padded[i]) == tags[i] {
      assert CleanTag(tags[i]);
      if i > 0 {
        TrimPadded(tags[i]);
      }
    }
  }

  /** The padded pieces carry no comma. */
  lemma PaddedTagsCommaFree(tags: seq<string>)
    requires AllClean(tags)
    ensures forall i :: 0 <= i < |tags| ==> ',' !in PadTail(tags, " ")[i]
  {
    var padded := PadTail(tags, " ");
    forall i | 0 <= i < |tags| ensures ',' !in padded[i] {
      assert CleanTag(tags[i]);
      if i > 0 {
        assert padded[i] == " " + tags[i];
      }
    }
  }

  /** The tags read back from the text `edit` puts in the form are the
      tags it started from. */
  lemma TagsRoundTrip(tags: seq<string>)
    requires |tags| >= 1
    requires AllClean(tags)
    ensures Join(tags, ", ") != ""
    ensures TagsOf(Join(tags, ", ")) == tags
  {
    assert CleanTag(tags[0]);
    assert |Join(tags, ", ")| >= |tags[0]|;
    var padded := PadTail(tags, " ");
    assert [','] + " " == ", ";
    JoinLongSeparator(tags, ',', " ");
    PaddedTagsCommaFree(tags);
    SplitJoin(padded, ',');
    assert Split(Join(tags, ", "), ',') == padded;
    TrimPaddedTags(tags);
    FilterKeepsAll(tags, NonEmpty());
  }

  /** `s?.trim() || undefined`. */
  function TrimmedOrNone(s: Option<string>): (r: Option<string>)
    ensures r.Some? <==> s.Some? && Trim(s.value) != ""
    ensures r.Some? ==> r.value == Trim(s.value)
  {
    if s.Some? && Trim(s.value) != "" then Some(Trim(s.value)) else None
  }

  /** The entry `submit` builds from a valid form: the title trimmed, notes
      trimmed or absent when blank, `completed` false, the date or absent
      when empty, and the tags split at commas, trimmed and without empty
      ones, or absent when the tags control is empty. */
  function BuildPayload(f: Form): (d: Draft)
    requires FormValid(f)
    ensures d.kind == f.kind.value
    ensures d.title == Trim(f.title.value)
    ensures d.notes.Some? <==> f.notes.Some? && Trim(f.notes.value) != ""
    ensures d.notes.Some? ==> d.notes.value == Trim(f.notes.value)
    ensures d.completed == Some(false)
    ensures d.date.Some? <==> Truthy(f.date)
    ensures d.date.Some? ==> d.date == f.date
    ensures d.tags.Some? <==> Truthy(f.tags)
    ensures d.tags.Some? ==> AllClean(d.tags.value)
  {
    Draft(
      f.kind.value,
      Trim(f.title.value),
      TrimmedOrNone(f.notes),
      Some(false),
      if Truthy(f.date) then f.date else None,
      if Truthy(f.tags) then Some(TagsOf(f.tags.value)) else None)
  }

  /** The payload handed to `update`: an object that carries all six keys,
      `undefined` ones included. */
  function PatchOf(d: Draft): (p: Patch)
    ensures p.id.None? && p.createdAt.None? && p.updatedAt.None?
  {
    Patch(None, Some(d.kind), Some(d.title), Some(d.notes), Some(d.completed), Some(d.date), None, None, Some(d.tags))
  }

  /** Updating with such a payload sets exactly the fields of the draft. */
  lemma PatchOfSetsDraft(e: Entry, d: Draft, now: string)
    ensures var r := Merge(e, PatchOf(d), now);
      DraftOf(r) == d && r.id == e.id && r.createdAt == e.createdAt && r.updatedAt == Some(now)
  {
  }

  /** What `edit` puts in the form for an entry. */
  function FormOf(e: Entry): Form {
    Form(Some(e.kind), Some(e.title), e.notes, e.date,
         if e.tags.Some? then Some(Join(e.tags.value, ", ")) else None)
  }

  /** An entry as the form itself would have produced it. */
  predicate Tidy(e: Entry) {
    && e.kind != "" && Trim(e.title) == e.title && Utf16Length(e.title) >= 2
    && (e.notes.Some? ==> e.notes.value != "" && Trim(e.notes.value) == e.notes.value)
    && (e.date.Some? ==> e.date.value != "")
    && (e.tags.Some? ==> |e.tags.value| >= 1 && AllClean(e.tags.value))
  }

  /** Opening such an entry for editing and saving it unchanged rebuilds
      its fields, except that `completed` is reset to false. */
  lemma EditRoundTrip(e: Entry)
    requires Tidy(e)
    ensures FormValid(FormOf(e))
    ensures BuildPayload(FormOf(e)) == DraftOf(e).(completed := Some(false))
  {
    var f := FormOf(e);
    assert FormValid(f);
    var d := BuildPayload(f);
    assert d.notes == e.notes by {
      if e.notes.Some? {
        assert Trim(e.notes.value) == e.notes.value != "";
      }
    }
    assert d.tags == e.tags by {
      if e.tags.Some? {
        TagsRoundTrip(e.tags.value);
      }
    }
    assert d.title == e.title && d.kind == e.kind && d.date == e.date;
  }

  /** So saving an unchanged edit of a completed entry marks it not
      completed, and changes nothing else but the update time. */
  lemma EditSubmitResetsCompletion(e: Entry, now: string)
    requires Tidy(e)
    ensures Merge(e, PatchOf(BuildPayload(FormOf(e))), now) == e.(completed := Some(false), updatedAt := Some(now))
  {
    EditRoundTrip(e);
  }

  /** Two entries the form does produce fall outside `Tidy`. The first: a
      title padded to pass the length check, such as "  a", is stored
      trimmed to one character, so the form `edit` fills for that entry
      fails validation and cannot be saved again unchanged. */
  lemma PaddedShortTitleBlocksResave(id: string, now: string)
    ensures var f := Form(Some("task"), Some("  a"), None, None, None);
            && FormValid(f)
            && Create(BuildPayload(f), id, now).title == "a"
            && !FormValid(FormOf(Create(BuildPayload(f), id, now)))
  {
    TrimPaddedTitle();
    assert Utf16Length("a") == 1;
  }

  /** "  a" trims to "a". */
  lemma TrimPaddedTitle()
    ensures Trim("  a") == "a"
  {
    var a := "a";
    var padded := "  a";
    assert padded[1..][1..] == a;
    assert TrimStart(padded) == TrimStart(padded[1..]) == TrimStart(a);
    assert !IsSpace(a[0]) && TrimStart(a) == a;
    assert TrimEnd(a) == a;
  }

  /** The second: a tags field holding only a separator, such as ", ",
      stores an empty tag list; `edit` joins it to the empty string, which
      saves as no tags at all. */
  lemma SeparatorOnlyTagsDropped(id: string, now: string)
    ensures var f := Form(Some("task"), Some("ab"), None, None, Some(", "));
            && FormValid(f)
            && Create(BuildPayload(f), id, now).tags == Some([])
            && FormValid(FormOf(Create(BuildPayload(f), id, now)))
            && BuildPayload(FormOf(Create(BuildPayload(f), id, now))).tags == None
  {
    var f := Form(Some("task"), Some("ab"), None, None, Some(", "));
    TitleLongEnough("ab");
    SeparatorOnlyTags();
    var d := BuildPayload(f);
    assert d.title == "ab" by {
      TrimmedTitle("ab");
    }
    var e := Create(d, id, now);
    var g := FormOf(e);
    assert g.tags == Some("");
    assert FormValid(g);
  }

  /** A two-letter title passes the length check. */
  lemma TitleLongEnough(t: string)
    requires t == "ab"
    ensures Utf16Length(t) == 2
  {
  }

  /** "ab" is already trimmed. */
  lemma TrimmedTitle(t: string)
    requires t == "ab"
    ensures Trim(t) == t
  {
    assert !IsSpace(t[0]) && !IsSpace(t[1]);
  }

  /** ", " holds no tag. */
  lemma SeparatorOnlyTags()
    ensures TagsOf(", ") == []
  {
    SplitCons(' ', "", ',');
    assert [' '] + "" == " ";
    SplitCons(',', " ", ',');
    assert [','] + " " == ", ";
    assert Split(", ", ',') == ["", " "];
    TrimBlank();
    var m := Map(Split(", ", ','), Trim);
    assert m == ["", ""];
    assert m[1..] == [""] && m[1..][1..] == [];
    assert Filter(m[1..], NonEmpty()) == [];
  }

  /** A single space trims to nothing. */
  lemma TrimBlank()
    ensures Trim(" ") == ""
  {
    var blank := " ";
    assert IsSpace(blank[0]) && blank[1..] == "";
  }

  /** The type filter: the lower-cased type equals the lower-cased filter. */
  function OfKind(filter: string): Entry -> bool {
    (e: Entry) => Lower(e.kind) == Lower(filter)
  }

  /** Some tag contains `q` once lower-cased. */
  predicate SomeTagIncludes(tags: seq<string>, q: string) {
    exists i :: 0 <= i < |tags| && Includes(Lower(tags[i]), q)
  }

  /** The search test: the lower-cased title, notes or some tag contains
      the query `q`. */
  function Matches(q: string): Entry -> bool {
    (e: Entry) =>
      Includes(Lower(e.title), q)
      || (e.notes.Some? && Includes(Lower(e.notes.value), q))
      || (e.tags.Some? && SomeTagIncludes(e.tags.value, q))
  }

  /** The query as searched for: lower-cased and trimmed. */
  function Query(searchQuery: string): string {
    Trim(Lower(searchQuery))
  }

  /** Whether the list is searched at all: the query is not blank. */
  predicate Searching(searchQuery: string) {
    searchQuery != "" && Trim(searchQuery) != ""
  }

  /** Both filters together, as one test on an entry. */
  function Shown(filter: string, searchQuery: string): Entry -> bool {
    (e: Entry) =>
      (filter == "all" || OfKind(filter)(e)) && (!Searching(searchQuery) || Matches(Query(searchQuery))(e))
  }

  /** The type filter and then the search, each applied only when set,
    give the entries that pass both tests. */
  lemma StagesAreShown(s: seq<Entry>, filter: string, searchQuery: string)
    ensures var byType := if filter != "all" then Filter(s, OfKind(filter)) else s;
      (if Searching(searchQuery) then Filter(byType, Matches(Query(searchQuery))) else byType)
      == Filter(s, Shown(filter, searchQuery))
  {
    var keepAll := (e: Entry) => true;
    FilterKeepsAll(s, keepAll);
    if filter != "all" {
      if Searching(searchQuery) {
        FilterTwice(s, OfKind(filter), Matches(Query(searchQuery)), Shown(filter, searchQuery));
      } else {
        FilterTwice(s, OfKind(filter), keepAll, Shown(filter, searchQuery));
        FilterKeepsAll(Filter(s, OfKind(filter)), keepAll);
      }
    } else if Searching(searchQuery) {
      FilterTwice(s, keepAll, Matches(Query(searchQuery)), Shown(filter, searchQuery));
    } else {
      FilterTwice(s, keepAll, keepAll, Shown(filter, searchQuery));
    }
  }

  /** `filtered()`: the entries of the selected type (unless "all") that
      match the search (unless it is blank), in their order. */
  function FilterEntries(s: seq<Entry>, filter: string, searchQuery: string): (r: seq<Entry>)
    ensures r == Filter(s, Shown(filter, searchQuery))
  {
    var byType := if filter != "all" then Filter(s, OfKind(filter)) else s;
    StagesAreShown(s, filter, searchQuery);
    if Searching(searchQuery) then Filter(byType, Matches(Query(searchQuery))) else byType
  }

  /** What `filtered()` shows: with no type selected and a blank search,
      every entry; always entries of the list in their order; and exactly
      the entries that pass both tests. */
  lemma FilteredSpec(s: seq<Entry>, filter: string, searchQuery: string)
    ensures filter == "all" && !Searching(searchQuery) ==> FilterEntries(s, filter, searchQuery) == s
    ensures IsSubsequence(FilterEntries(s, filter, searchQuery), s)
    ensures forall e :: e in FilterEntries(s, filter, searchQuery) <==> e in s && Shown(filter, searchQuery)(e)
  {
    if filter == "all" && !Searching(searchQuery) {
      FilterKeepsAll(s, Shown(filter, searchQuery));
    }
    FilterIsSubsequence(s, Shown(filter, searchQuery));
    forall e ensures e in FilterEntries(s, filter, searchQuery) <==> e in s && Shown(filter, searchQuery)(e) {
      FilterMembers(s, Shown(filter, searchQuery), e);
    }
  }

  /** The statistics panel. */
  datatype Stats = Stats(
    total: nat,
    tasks: nat,
    notes: nat,
    events: nat,
    habits: nat,
    emotions: nat,
    completed: nat,
    pending: nat)

  /** Entries whose lower-cased type is `k`. */
  function LowerKind(k: string): Entry -> bool {
    (e: Entry) => Lower(e.kind) == k
  }

  /** Completed entries (`completed` true), of any type. */
  function IsCompleted(): Entry -> bool {
    (e: Entry) => e.completed == Some(true)
  }

  /** Tasks that are not completed. */
  function IsPendingTask(): Entry -> bool {
    (e: Entry) => e.completed != Some(true) && Lower(e.kind) == "task"
  }

  /** `getStats()`: the total, a count per type (case-insensitive), the
      completed entries of every type and those tasks still pending. The
      type counts never exceed the total, pending tasks are tasks, and no
      entry is both completed and pending. */
  function StatsOf(s: seq<Entry>): (r: Stats)
    ensures r.total == |s|
    ensures r.tasks + r.notes + r.events + r.habits + r.emotions <= r.total
    ensures r.pending <= r.tasks
    ensures r.completed + r.pending <= r.total
  {
    var r := Stats(|s|, Count(s, LowerKind("task")), Count(s, LowerKind("note")), Count(s, LowerKind("event")),
                   Count(s, LowerKind("habit")), Count(s, LowerKind("emotion")), Count(s, IsCompleted()),
                   Count(s, IsPendingTask()));
    var tn := Either(LowerKind("task"), LowerKind("note"));
    var tne := Either(tn, LowerKind("event"));
    var tneh := Either(tne, LowerKind("habit"));
    var all := Either(tneh, LowerKind("emotion"));
    CountDisjoint(s, LowerKind("task"), LowerKind("note"));
    CountDisjoint(s, tn, LowerKind("event"));
    CountDisjoint(s, tne, LowerKind("habit"));
    CountDisjoint(s, tneh, LowerKind("emotion"));
    CountMonotone(s, IsPendingTask(), LowerKind("task"));
    CountDisjoint(s, IsCompleted(), IsPendingTask());
    r
  }

  /** `getEntryTypeIcon`: the icon of each of the five types, and a bullet
      for any other value. */
  function TypeIcon(kind: string): (r: string)
    ensures r != ""
    ensures r == "\U{2022}" <==> kind !in {"task", "note", "event", "habit", "emotion"}
  {
    if kind == "task" then "\U{2713}"
    else if kind == "note" then "\U{1F4DD}"
    else if kind == "event" then "\U{1F4C5}"
    else if kind == "habit" then "\U{1F504}"
    else if kind == "emotion" then "\U{1F60A}"
    else "\U{2022}"
  }

  /** `getEntryTypeColor`: the colour of each of the five types, and grey
      for any other value; always a `#rrggbb` code. */
  function TypeColor(kind: string): (r: string)
    ensures |r| == 7 && r[0] == '#'
    ensures r == "#6b7280" <==> kind !in {"task", "note", "event", "habit", "emotion"}
  {
    if kind == "task" then "#3b82f6"
    else if kind == "note" then "#10b981"
    else if kind == "event" then "#f59e0b"
    else if kind == "habit" then "#8b5cf6"
    else if kind == "emotion" then "#ef4444"
    else "#6b7280"
  }

  /** Different known types get different icons and different colours. */
  lemma TypeLooksDistinct(a: string, b: string)
    requires a in {"task", "note", "event", "habit", "emotion"} && b in {"task", "note", "event", "habit", "emotion"}
    requires a != b
    ensures TypeIcon(a) != TypeIcon(b) && TypeColor(a) != TypeColor(b)
  {
  }

  class JournalPageComponent {
    const js: JournalService
    var entries: seq<Entry>
    var form: Form
    var editing: Option<Entry>
    /** The selected type, or "all". */
    var filter: string
    var searchQuery: string
    var showForm: bool

    constructor (js: JournalService)
      ensures this.js == js
      ensures entries == [] && form == InitialForm && editing == None
      ensures filter == "all" && searchQuery == "" && !showForm
    {
      this.js := js;
      entries := [];
      form := InitialForm;
      editing := None;
      filter := "all";
      searchQuery := "";
      showForm := false;
    }

    /** `load`: the service's entries, newest first. */
    method Load()
      modifies this`entries
      ensures entries == js.GetAll()
    {
      entries := js.GetAll();
    }

    /** `filtered()`. */
    function Filtered(): (r: seq<Entry>)
      reads this
      ensures IsSubsequence(r, entries)
      ensures forall e :: e in r <==> e in entries && Shown(filter, searchQuery)(e)
    {
      FilteredSpec(entries, filter, searchQuery);
      FilterEntries(entries, filter, searchQuery)
    }

    /** `getStats()`. */
    function GetStats(): (r: Stats)
      reads this
      ensures r == StatsOf(entries)
      ensures r.pending <= r.tasks <= r.total
    {
      StatsOf(entries)
    }

    /** `submit`: an invalid form changes nothing. Otherwise the payload
        updates the entry being edited, or is added as a new entry with
        the given id and time; then the list is reloaded, the form reset
        and hidden, and nothing is being edited. */
    method Submit(newId: string, now: string)
      modifies this`entries, this`form, this`editing, this`showForm, js`entries, js`storage
      ensures !FormValid(old(form)) ==>
                && entries == old(entries) && form == old(form) && editing == old(editing)
                && showForm == old(showForm) && js.entries == old(js.entries) && js.storage == old(js.storage)
      ensures FormValid(old(form)) && old(editing).Some? ==>
                js.entries == Updated(old(js.entries), old(editing).value.id, PatchOf(BuildPayload(old(form))), now)
      ensures FormValid(old(form)) && old(editing).None? ==>
                js.entries == [Create(BuildPayload(old(form)), newId, now)] + old(js.entries)
      ensures FormValid(old(form)) && (old(editing).None? || IndexOf(old(js.entries), old(editing).value.id) >= 0) ==>
                && js.storage == (if js.isBrowser then old(js.storage)[StorageKey := js.codec.encode(js.entries)] else old(js.storage))
                && js.Mirrored()
      ensures FormValid(old(form)) && old(editing).Some? && IndexOf(old(js.entries), old(editing).value.id) < 0 ==>
                js.entries == old(js.entries) && js.storage == old(js.storage)
      ensures FormValid(old(form)) ==>
                entries == js.GetAll() && form == ResetForm && editing == None && !showForm
    {
      if !FormValid(form) {
        return;
      }
      Persist(BuildPayload(form), newId, now);
      editing := None;
      Load();
      form := ResetForm;
      showForm := false;
    }

    /** The saving step of `submit`: the payload updates the entry being
        edited, or is added as a new entry. */
    method Persist(payload: Draft, newId: string, now: string)
      modifies js`entries, js`storage
      ensures editing.Some? ==> js.entries == Updated(old(js.entries), editing.value.id, PatchOf(payload), now)
      ensures editing.None? ==> js.entries == [Create(payload, newId, now)] + old(js.entries)
      ensures editing.None? || IndexOf(old(js.entries), editing.value.id) >= 0 ==>
                && js.storage == (if js.isBrowser then old(js.storage)[StorageKey := js.codec.encode(js.entries)] else old(js.storage))
                && js.Mirrored()
      ensures editing.Some? && IndexOf(old(js.entries), editing.value.id) < 0 ==>
                js.entries == old(js.entries) && js.storage == old(js.storage)
    {
      if editing.Some? {
        var _ := js.Update(editing.value.id, PatchOf(payload), now);
      } else {
        var _ := js.Add(payload, newId, now);
      }
    }

    /** `edit`: the entry goes into the form, which is shown. */
    method Edit(e: Entry)
      modifies this`editing, this`showForm, this`form
      ensures editing == Some(e) && showForm && form == FormOf(e)
    {
      editing := Some(e);
      showForm := true;
      form := FormOf(e);
    }

    /** `remove`, with the user's answer to the confirmation as a parameter:
        declined, nothing happens; confirmed, the entry goes and the list
        is reloaded. */
    method Remove(id: string, confirmed: bool)
      modifies this`entries, js`entries, js`storage
      ensures !confirmed ==> entries == old(entries) && js.entries == old(js.entries) && js.storage == old(js.storage)
      ensures confirmed ==> js.entries == Filter(old(js.entries), OtherThan(id)) && entries == js.GetAll()
      ensures confirmed ==>
                js.storage == if IndexOf(old(js.entries), id) >= 0 && js.isBrowser
                              then old(js.storage)[StorageKey := js.codec.encode(js.entries)]
                              else old(js.storage)
      ensures confirmed ==> forall k :: 0 <= k < |entries| ==> entries[k].id != id
    {
      if !confirmed {
        return;
      }
      var _ := js.Remove(id);
      Load();
      forall k | 0 <= k < |entries| ensures entries[k].id != id {
        assert entries[k] in multiset(js.entries);
      }
    }

    /** `toggle`: flips the entry's completion and reloads the list. */
    method Toggle(id: string, now: string)
      modifies this`entries, js`entries, js`storage
      ensures IndexOf(old(js.entries), id) < 0 ==> js.entries == old(js.entries) && js.storage == old(js.storage)
      ensures IndexOf(old(js.entries), id) >= 0 ==>
                var was := old(js.entries)[IndexOf(old(js.entries), id)];
                && js.entries == Updated(old(js.entries), id, TogglePatch(was), now)
                && js.storage == (if js.isBrowser then old(js.storage)[StorageKey := js.codec.encode(js.entries)] else old(js.storage))
                && js.Mirrored()
      ensures entries == js.GetAll()
    {
      var _ := js.ToggleComplete(id, now);
      Load();
    }

    /** `toggleForm`: opening the form clears the edit and resets the form;
        closing it is `cancelEdit`. Either way nothing is being edited. */
    method ToggleForm()
      modifies this`showForm, this`editing, this`form
      ensures showForm == !old(showForm)
      ensures editing == None && form == ResetForm
    {
      showForm := !showForm;
      if showForm {
        editing := None;
        form := ResetForm;
      } else {
        CancelEdit();
      }
    }

    /** `cancelEdit`: nothing is being edited, the form is reset and hidden. */
    method CancelEdit()
      modifies this`showForm, this`editing, this`form
      ensures editing == None && !showForm && form == ResetForm
    {
      editing := None;
      showForm := false;
      form := ResetForm;
    }

    /** `clearSearch`: the full list of the selected type shows again. */
    method ClearSearch()
      modifies this`searchQuery
      ensures searchQuery == ""
      ensures Filtered() == FilterEntries(entries, filter, "")
    {
      searchQuery := "";
    }
  }
}
