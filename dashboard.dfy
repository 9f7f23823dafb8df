/** The dashboard: entry counts, the five most recent entries, the next
    three events and the greeting. The current time is a parameter: an
    ISO-8601 timestamp for the date comparisons and the hour of the day
    for the greeting. */
module Dashboard {
  import opened Base
  import opened Seqs
  import opened Ordering
  import opened Journal
  import opened JournalStore
  import opened JournalPage

  /** The dashboard's counts. */
  datatype DashboardStats = DashboardStats(
    total: nat,
    tasks: nat,
    notes: nat,
    events: nat,
    habits: nat,
    completed: nat,
    pending: nat)

  /** Entries whose type is exactly `k` (no case folding here). */
  function KindIs(k: string): Entry -> bool {
    (e: Entry) => e.kind == k
  }

  /** Completed entries, of any type. */
  function Done(): Entry -> bool {
    (e: Entry) => e.completed == Some(true)
  }

  /** Tasks not completed. */
  function Pending(): Entry -> bool {
    (e: Entry) => e.completed != Some(true) && e.kind == "task"
  }

  /** The `stats` signal: the total, a count per type, the completed
      entries and the pending tasks. The four type counts never exceed the
      total, pending tasks are tasks, and no entry is both completed and
      pending. */
  function CountsOf(all: seq<Entry>): (r: DashboardStats)
    ensures r.total == |all|
    ensures r.tasks + r.notes + r.events + r.habits <= r.total
    ensures r.pending <= r.tasks
    ensures r.completed + r.pending <= r.total
  {
    var tn := Either(KindIs("task"), KindIs("note"));
    var tne := Either(tn, KindIs("event"));
    CountDisjoint(all, KindIs("task"), KindIs("note"));
    CountDisjoint(all, tn, KindIs("event"));
    CountDisjoint(all, tne, KindIs("habit"));
    CountMonotone(all, Pending(), KindIs("task"));
    CountDisjoint(all, Done(), Pending());
    DashboardStats(|all|, Count(all, KindIs("task")), Count(all, KindIs("note")), Count(all, KindIs("event")),
                   Count(all, KindIs("habit")), Count(all, Done()), Count(all, Pending()))
  }

  /** The five most recent entries: a copy sorted newest first, cut to five. */
  function Recent(all: seq<Entry>): seq<Entry> {
    Take(SortByKey(all, CreatedAt, Descending), 5)
  }

  /** At most five entries, each drawn from the list, newest first. */
  lemma RecentSpec(all: seq<Entry>)
    ensures |Recent(all)| == if |all| < 5 then |all| else 5
    ensures multiset(Recent(all)) <= multiset(all)
    ensures Sorted(Recent(all), CreatedAt, Descending)
  {
    var sorted := SortByKey(all, CreatedAt, Descending);
    TakeWithin(sorted, 5);
    SortedPrefix(sorted, CreatedAt, Descending, |Take(sorted, 5)|);
  }

  /** `getAll` already returns the entries newest first, so the recent
      entries are simply its first five. */
  lemma RecentOfSorted(all: seq<Entry>)
    requires Sorted(all, CreatedAt, Descending)
    ensures Recent(all) == Take(all, 5)
  {
    SortSortedIsIdentity(all, CreatedAt, Descending);
  }

  /** Events that carry a date. */
  function DatedEvent(): Entry -> bool {
    (e: Entry) => e.kind == "event" && Truthy(e.date)
  }

  /** Entries whose date is not before the instant `now`, both compared as
      ISO-8601 strings. */
  function NotBefore(now: string): Entry -> bool {
    (e: Entry) => e.date.Some? && !LexLess(e.date.value, now)
  }

  /** Both tests together: an event dated `now` or later. */
  function IsUpcoming(now: string): Entry -> bool {
    (e: Entry) => e.kind == "event" && Truthy(e.date) && !LexLess(e.date.value, now)
  }

  /** The sort key of an event: its date. */
  function DateKey(e: Entry): string {
    e.date.GetOr("")
  }

  /** The next three events: dated events not before `now`, earliest
      first, cut to three. */
  function Upcoming(all: seq<Entry>, now: string): seq<Entry> {
    Take(SortByKey(Filter(Filter(all, DatedEvent()), NotBefore(now)), DateKey, Ascending), 3)
  }

  /** At most three events, as many as there are upcoming ones up to three,
      each drawn from the list and upcoming, earliest first. */
  lemma UpcomingSpec(all: seq<Entry>, now: string)
    ensures |Upcoming(all, now)| == if Count(all, IsUpcoming(now)) < 3 then Count(all, IsUpcoming(now)) else 3
    ensures multiset(Upcoming(all, now)) <= multiset(all)
    ensures forall i :: 0 <= i < |Upcoming(all, now)| ==> IsUpcoming(now)(Upcoming(all, now)[i])
    ensures Sorted(Upcoming(all, now), DateKey, Ascending)
  {
    var chosen := Filter(Filter(all, DatedEvent()), NotBefore(now));
    var sorted := SortByKey(chosen, DateKey, Ascending);
    var r := Take(sorted, 3);
    FilterTwice(all, DatedEvent(), NotBefore(now), IsUpcoming(now));
    FilterWithin(all, IsUpcoming(now));
    TakeWithin(sorted, 3);
    SortedPrefix(sorted, DateKey, Ascending, |r|);
    forall i | 0 <= i < |r| ensures IsUpcoming(now)(r[i]) {
      assert r[i] in multiset(sorted);
      assert r[i] in multiset(chosen);
      FilterMembers(all, IsUpcoming(now), r[i]);
    }
  }

  /** A filter holds no element more often than its input. */
  lemma {:induction false} FilterWithin(s: seq<Entry>, keep: Entry -> bool)
    ensures multiset(Filter(s, keep)) <= multiset(s)
    decreases |s|
  {
    if s != [] {
      FilterWithin(s[1..], keep);
      assert s == [s[0]] + s[1..];
    }
  }

  /** An event dated today (a date-only string) is already past: the date
      names midnight at the start of the day, which comes before any later
      instant of that day. At midnight itself `Date` finds the two equal,
      so that instant is excluded. */
  lemma TodayIsNotUpcoming(e: Entry, now: string)
    requires |now| > 10 && now[10..] != "T00:00:00.000Z" && e.date == Some(DatePart(now))
    ensures !IsUpcoming(now)(e)
  {
    ProperPrefixLess(DatePart(now), now);
  }

  /** `getGreeting` for the hour of the day. */
  function Greeting(hour: int): (r: string)
    ensures hour < 12 ==> r == "Good Morning"
    ensures 12 <= hour < 18 ==> r == "Good Afternoon"
    ensures 18 <= hour ==> r == "Good Evening"
  {
    if hour < 12 then "Good Morning"
    else if hour < 18 then "Good Afternoon"
    else "Good Evening"
  }

  /** The position of a greeting in the day. */
  function GreetingRank(g: string): nat {
    if g == "Good Morning" then 0 else if g == "Good Afternoon" then 1 else 2
  }

  /** Greetings follow the course of the day: a later hour never gets an
      earlier greeting. */
  lemma GreetingMonotone(earlier: int, later: int)
    requires earlier <= later
    ensures GreetingRank(Greeting(earlier)) <= GreetingRank(Greeting(later))
  {
  }

  /** The four declared entry types. */
  predicate DeclaredKind(kind: string) {
    kind == "task" || kind == "note" || kind == "event" || kind == "habit"
  }

  /** The dashboard's `getEntryTypeIcon`. Its icon texts are stored
      mis-encoded (the UTF-8 bytes of the journal page's symbols read as a
      single-byte code page), and they are modelled as stored. Types other
      than the four declared ones get the fallback. */
  function EntryTypeIcon(kind: string): (r: string)
    ensures r != ""
    ensures r == "\U{e2}\U{20ac}\U{a2}" <==> !DeclaredKind(kind)
  {
    if kind == "task" then "\U{e2}\U{153}\U{201c}"
    else if kind == "note" then "\U{11f}\U{178}\U{201c}"
    else if kind == "event" then "\U{11f}\U{178}\U{201c}\U{2026}"
    else if kind == "habit" then "\U{11f}\U{178}\U{201d}\U{201e}"
    else "\U{e2}\U{20ac}\U{a2}"
  }

  /** The dashboard's `getEntryTypeColor`: the four declared types have
      their colour, anything else (the journal page's "emotion" included)
      is grey. */
  function EntryTypeColor(kind: string): (r: string)
    ensures |r| == 7 && r[0] == '#'
    ensures r == "#6b7280" <==> !DeclaredKind(kind)
  {
    if kind == "task" then "#3b82f6"
    else if kind == "note" then "#10b981"
    else if kind == "event" then "#f59e0b"
    else if kind == "habit" then "#8b5cf6"
    else "#6b7280"
  }

  /** The dashboard and the journal page colour every type alike except
      "emotion", which only the journal page knows. */
  lemma ColorsAgree(kind: string)
    ensures kind != "emotion" ==> EntryTypeColor(kind) == TypeColor(kind)
    ensures EntryTypeColor("emotion") != TypeColor("emotion")
  {
  }

  /** Distinct declared types get distinct icons and colours. */
  lemma EntryTypesLookDistinct(a: string, b: string)
    requires DeclaredKind(a) && DeclaredKind(b) && a != b
    ensures EntryTypeIcon(a) != EntryTypeIcon(b) && EntryTypeColor(a) != EntryTypeColor(b)
  {
  }

  class DashboardComponent {
    const journalService: JournalService
    var entries: seq<Entry>
    var recentEntries: seq<Entry>
    var upcomingEvents: seq<Entry>

    constructor (journalService: JournalService)
      ensures this.journalService == journalService
      ensures entries == [] && recentEntries == [] && upcomingEvents == []
    {
      this.journalService := journalService;
      entries := [];
      recentEntries := [];
      upcomingEvents := [];
    }

    /** The `stats` signal, recomputed from `entries`. */
    function Stats(): (r: DashboardStats)
      reads this
      ensures r == CountsOf(entries)
      ensures r.total == |entries|
    {
      CountsOf(entries)
    }

    /** `loadEntries` at the instant `now`: all entries, the five most
        recent (the first five of the list, which is newest first) and the
        next three events. */
    method LoadEntries(now: string)
      modifies this`entries, this`recentEntries, this`upcomingEvents
      ensures entries == journalService.GetAll()
      ensures recentEntries == Recent(entries) == Take(entries, 5)
      ensures upcomingEvents == Upcoming(entries, now)
    {
      entries := journalService.GetAll();
      recentEntries := Recent(entries);
      RecentOfSorted(entries);
      upcomingEvents := Upcoming(entries, now);
    }
  }
}
