/** The threads list page: subscribes to the signed-in user's threads,
    newest first, and narrows the list by a title search, a date range and
    a minimum message count. */
module ThreadsPage {
  import opened Js
  import opened Strings
  import opened Lists
  import opened Store

  /** A listed thread. */
  datatype ThreadRow = ThreadRow(
    id: string, title: string, lastModified: int, messageCount: int,
    tags: seq<string>, ownerName: Option<string>)

  datatype FilterOptions = FilterOptions(searchTerm: string, dateRange: string, minMessages: int)

  /** The clock readings the date filter compares against: now, and the
      same moment one day, seven days and one calendar month earlier. */
  datatype Clock = Clock(now: int, dayAgo: int, weekAgo: int, monthAgo: int)

  /** The cutoff for a date range; a value the switch does not list
      leaves the cutoff at the current time. */
  function Cutoff(dateRange: string, clock: Clock): (c: int)
    ensures dateRange == "day" ==> c == clock.dayAgo
    ensures dateRange == "week" ==> c == clock.weekAgo
    ensures dateRange == "month" ==> c == clock.monthAgo
    ensures dateRange !in {"day", "week", "month"} ==> c == clock.now
  {
    match dateRange
    case "day" => clock.dayAgo
    case "week" => clock.weekAgo
    case "month" => clock.monthAgo
    case _ => clock.now
  }

  /** A thread passes the filters: its lower-cased title contains the
      lower-cased search term (when there is one), it was modified at or
      after the cutoff (unless the range is 'all'), and it has at least
      the minimum number of messages (when that is positive). */
  predicate Matches(t: ThreadRow, f: FilterOptions, clock: Clock, lower: string -> string) {
    PassSearch(t, f, lower) && PassDate(t, f, clock) && PassCount(t, f)
  }

  predicate PassSearch(t: ThreadRow, f: FilterOptions, lower: string -> string) {
    f.searchTerm == "" || Contains(lower(t.title), lower(f.searchTerm))
  }

  predicate PassDate(t: ThreadRow, f: FilterOptions, clock: Clock) {
    f.dateRange == "all" || t.lastModified >= Cutoff(f.dateRange, clock)
  }

  predicate PassCount(t: ThreadRow, f: FilterOptions) {
    f.minMessages <= 0 || t.messageCount >= f.minMessages
  }

  /** `docs` is what the query `ownerId == uid` ordered by `lastModified`
      descending returns: each thread of that owner once, newest first. A
      document without metadata has no `ownerId` and never matches. */
  ghost predicate IsOwnedQuery(docs: seq<(string, ThreadMeta)>, threads: map<string, ThreadDoc>, uid: string) {
    && (forall k :: 0 <= k < |docs| ==>
          docs[k].0 in threads && threads[docs[k].0].meta == Some(docs[k].1) && docs[k].1.ownerId == uid)
    && (forall i, j :: 0 <= i < j < |docs| ==> docs[i].0 != docs[j].0)
    && (forall i, j :: 0 <= i < j < |docs| ==> docs[i].1.lastModified >= docs[j].1.lastModified)
    && (forall id :: id in threads && threads[id].meta.Some? && threads[id].meta.value.ownerId == uid ==>
          exists k :: 0 <= k < |docs| && docs[k].0 == id)
  }

  /** One row per document; missing tags become the empty list. */
  function RowOf(id: string, meta: ThreadMeta): (row: ThreadRow)
    ensures row.id == id && row.title == meta.title && row.lastModified == meta.lastModified
    ensures row.messageCount == meta.messageCount && row.ownerName == meta.ownerName
    ensures row.tags == (if meta.tags.Some? then meta.tags.value else [])
  {
    ThreadRow(id, meta.title, meta.lastModified, meta.messageCount,
              if meta.tags.Some? then meta.tags.value else [], meta.ownerName)
  }

  function RowsOf(docs: seq<(string, ThreadMeta)>): (rows: seq<ThreadRow>)
    ensures |rows| == |docs|
    ensures forall k :: 0 <= k < |docs| ==> rows[k] == RowOf(docs[k].0, docs[k].1)
  {
    if docs == [] then [] else [RowOf(docs[0].0, docs[0].1)] + RowsOf(docs[1..])
  }

  /** The rows of an owner query are that owner's threads, newest first,
      each once. */
  lemma OwnedRows(docs: seq<(string, ThreadMeta)>, threads: map<string, ThreadDoc>, uid: string)
    requires IsOwnedQuery(docs, threads, uid)
    ensures var rows := RowsOf(docs);
            && (forall k :: 0 <= k < |rows| ==>
                  rows[k].id in threads && threads[rows[k].id].meta.Some? &&
                  threads[rows[k].id].meta.value.ownerId == uid)
            && Sorted(rows, (t: ThreadRow) => t.lastModified, true)
            && (forall i, j :: 0 <= i < j < |rows| ==> rows[i].id != rows[j].id)
  {
    var rows := RowsOf(docs);
    forall i, j | 0 <= i < j < |rows|
      ensures InOrder((t: ThreadRow) => t.lastModified, true, rows[i], rows[j])
    {
      assert rows[i].lastModified == docs[i].1.lastModified;
      assert rows[j].lastModified == docs[j].1.lastModified;
    }
  }

  /** The threads that pass the filters, in the list's order. */
  function Filtered(threads: seq<ThreadRow>, f: FilterOptions, clock: Clock, lower: string -> string)
    : (r: seq<ThreadRow>)
    ensures forall k :: 0 <= k < |r| ==> r[k] in threads && Matches(r[k], f, clock, lower)
    ensures forall k :: 0 <= k < |threads| && Matches(threads[k], f, clock, lower) ==> threads[k] in r
    ensures IsSubsequence(r, threads)
    ensures forall x :: multiset(r)[x] == if Matches(x, f, clock, lower) then multiset(threads)[x] else 0
    decreases |threads|
  {
    if threads == [] then []
    else
      var rest := Filtered(threads[1..], f, clock, lower);
      assert threads == [threads[0]] + threads[1..];
      assert multiset(threads) == multiset{threads[0]} + multiset(threads[1..]);
      if Matches(threads[0], f, clock, lower) then
        assert ([threads[0]] + rest)[1..] == rest;
        [threads[0]] + rest
      else rest
  }

  /** A filter on a condition that agrees with `Matches` is `Filtered`. */
  lemma {:induction false} FilterIsFiltered(s: seq<ThreadRow>, keep: ThreadRow -> bool, f: FilterOptions,
                                            clock: Clock, lower: string -> string)
    requires forall k :: 0 <= k < |s| ==> keep(s[k]) == Matches(s[k], f, clock, lower)
    ensures Filter(s, keep) == Filtered(s, f, clock, lower)
    decreases |s|
  {
    if s != [] {
      FilterIsFiltered(s[1..], keep, f, clock, lower);
    }
  }

  /** The three conditions as the callbacks handed to `filter`. */
  function SearchKeep(f: FilterOptions, lower: string -> string): ThreadRow -> bool {
    (t: ThreadRow) => PassSearch(t, f, lower)
  }

  function DateKeep(f: FilterOptions, clock: Clock): ThreadRow -> bool {
    (t: ThreadRow) => PassDate(t, f, clock)
  }

  function CountKeep(f: FilterOptions): ThreadRow -> bool {
    (t: ThreadRow) => PassCount(t, f)
  }

  /** The first `n` conditions together. */
  predicate UpTo(n: nat, t: ThreadRow, f: FilterOptions, clock: Clock, lower: string -> string) {
    && (n >= 1 ==> PassSearch(t, f, lower))
    && (n >= 2 ==> PassDate(t, f, clock))
    && (n >= 3 ==> PassCount(t, f))
  }

  function UpToKeep(n: nat, f: FilterOptions, clock: Clock, lower: string -> string): ThreadRow -> bool {
    (t: ThreadRow) => UpTo(n, t, f, clock, lower)
  }

  lemma SearchStage(threads: seq<ThreadRow>, f: FilterOptions, clock: Clock, lower: string -> string)
    ensures (if f.searchTerm != "" then Filter(threads, SearchKeep(f, lower)) else threads)
            == Filter(threads, UpToKeep(1, f, clock, lower))
  {
    if f.searchTerm != "" {
      FilterAgree(threads, SearchKeep(f, lower), UpToKeep(1, f, clock, lower));
    } else {
      FilterKeepsAll(threads, UpToKeep(1, f, clock, lower));
    }
  }

  lemma DateStage(threads: seq<ThreadRow>, r1: seq<ThreadRow>, f: FilterOptions, clock: Clock, lower: string -> string)
    requires r1 == Filter(threads, UpToKeep(1, f, clock, lower))
    ensures (if f.dateRange != "all" then Filter(r1, DateKeep(f, clock)) else r1)
            == Filter(threads, UpToKeep(2, f, clock, lower))
  {
    if f.dateRange != "all" {
      FilterThen(threads, UpToKeep(1, f, clock, lower), DateKeep(f, clock), UpToKeep(2, f, clock, lower));
    } else {
      FilterAgree(threads, UpToKeep(1, f, clock, lower), UpToKeep(2, f, clock, lower));
    }
  }

  lemma CountStage(threads: seq<ThreadRow>, r2: seq<ThreadRow>, f: FilterOptions, clock: Clock, lower: string -> string)
    requires r2 == Filter(threads, UpToKeep(2, f, clock, lower))
    ensures (if f.minMessages > 0 then Filter(r2, CountKeep(f)) else r2)
            == Filter(threads, UpToKeep(3, f, clock, lower))
  {
    if f.minMessages > 0 {
      FilterThen(threads, UpToKeep(2, f, clock, lower), CountKeep(f), UpToKeep(3, f, clock, lower));
    } else {
      FilterAgree(threads, UpToKeep(2, f, clock, lower), UpToKeep(3, f, clock, lower));
    }
  }

  /** Applying each filter only when its option is set, one after the
      other, keeps exactly the matching threads. */
  lemma FiltersInSequence(threads: seq<ThreadRow>, f: FilterOptions, clock: Clock, lower: string -> string)
    ensures var r1 := if f.searchTerm != "" then Filter(threads, SearchKeep(f, lower)) else threads;
            var r2 := if f.dateRange != "all" then Filter(r1, DateKeep(f, clock)) else r1;
            var r3 := if f.minMessages > 0 then Filter(r2, CountKeep(f)) else r2;
            r3 == Filtered(threads, f, clock, lower)
  {
    var r1 := if f.searchTerm != "" then Filter(threads, SearchKeep(f, lower)) else threads;
    SearchStage(threads, f, clock, lower);
    var r2 := if f.dateRange != "all" then Filter(r1, DateKeep(f, clock)) else r1;
    DateStage(threads, r1, f, clock, lower);
    CountStage(threads, r2, f, clock, lower);
    FilterIsFiltered(threads, UpToKeep(3, f, clock, lower), f, clock, lower);
  }

  class Page {
    var threads: seq<ThreadRow>
    var filteredThreads: seq<ThreadRow>
    var error: Option<string>
    var dataLoading: bool
    var filters: FilterOptions

    constructor ()
      ensures threads == [] && filteredThreads == [] && error.None? && dataLoading
      ensures filters == FilterOptions("", "all", 0)
    {
      threads, filteredThreads, error, dataLoading := [], [], None, true;
      filters := FilterOptions("", "all", 0);
    }

    /** The subscription effect when no user is signed in: loading stops
        and nothing is subscribed. */
    method NoUser()
      modifies this`dataLoading
      ensures !dataLoading
    {
      dataLoading := false;
    }

    /** A snapshot of the owner query arrives: both lists become its rows. */
    method OnSnapshot(docs: seq<(string, ThreadMeta)>, ghost store: map<string, ThreadDoc>, ghost uid: string)
      requires IsOwnedQuery(docs, store, uid)
      modifies this`threads, this`filteredThreads, this`dataLoading
      ensures threads == filteredThreads == RowsOf(docs) && !dataLoading
      ensures Sorted(threads, (t: ThreadRow) => t.lastModified, true)
    {
      OwnedRows(docs, store, uid);
      threads := RowsOf(docs);
      filteredThreads := threads;
      dataLoading := false;
    }

    /** The subscription fails. */
    method OnSnapshotError(message: string)
      modifies this`error, this`dataLoading
      ensures error == Some(message) && !dataLoading
    {
      error := Some(message);
      dataLoading := false;
    }

    method SetFilters(f: FilterOptions)
      modifies this`filters
      ensures filters == f
    {
      filters := f;
    }

    /** The filtering effect: three optional filters in a row, which
        together keep exactly the threads that match, in order. */
    method ApplyFilters(clock: Clock, lower: string -> string)
      modifies this`filteredThreads
      ensures filteredThreads == Filtered(threads, filters, clock, lower)
    {
      var f := filters;
      var result := threads;
      if f.searchTerm != "" {
        result := Filter(result, SearchKeep(f, lower));
      }
      if f.dateRange != "all" {
        result := Filter(result, DateKeep(f, clock));
      }
      if f.minMessages > 0 {
        result := Filter(result, CountKeep(f));
      }
      FiltersInSequence(threads, f, clock, lower);
      filteredThreads := result;
    }
  }
}
