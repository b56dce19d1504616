// The left sidebar's thread list: the recent-threads record turned into a
// list, sorted newest first and filtered by the search box; and the two
// handlers that navigate (delete a thread, start a new chat).
module LeftSidebar {
  import opened Wrappers
  import opened ChatTypes
  import opened JsString
  import SeqUtil
  import QueryCache
  import UseChat

  /** One `[threadId, thread]` pair of `Object.entries(threads)`, in the record's order. */
  type Entry = (string, ThreadDetails)

  /**
   * `new Date(s).getTime()`: the clock reading a `lastMessageAt` stamp stands for.
   * Date parsing is the runtime's; the model takes it as a given function.
   */
  type TimeOf = string -> int

  /** The listed thread: the record's value with its key as `threadId`. */
  function Listed(e: Entry): (t: ThreadDetailsWithId)
    ensures t.threadId == e.0 && t.details == e.1
  {
    ThreadDetailsWithId(e.0, e.1)
  }

  function ListEntries(entries: seq<Entry>): (r: seq<ThreadDetailsWithId>)
    ensures |r| == |entries|
    ensures forall i :: 0 <= i < |entries| ==> r[i] == Listed(entries[i])
  {
    SeqUtil.Map(entries, Listed)
  }

  function Time(t: ThreadDetailsWithId, time: TimeOf): int
  {
    time(t.details.lastMessageAt)
  }

  /** Newest first: no thread is listed after one with a later stamp. */
  predicate NewestFirst(s: seq<ThreadDetailsWithId>, time: TimeOf)
  {
    forall i, j :: 0 <= i < j < |s| ==> Time(s[i], time) >= Time(s[j], time)
  }

  /**
   * Insert t into a newest-first list ahead of every thread no newer than t.
   * The comparator `b - a` with a stable sort puts t, which came earlier in
   * the input, before the threads it ties with.
   */
  function Insert(t: ThreadDetailsWithId, s: seq<ThreadDetailsWithId>, time: TimeOf): (r: seq<ThreadDetailsWithId>)
    requires NewestFirst(s, time)
    ensures NewestFirst(r, time)
    ensures |r| == |s| + 1
    ensures r[0] == t || (s != [] && r[0] == s[0])
  {
    if s == [] || Time(t, time) >= Time(s[0], time) then [t] + s
    else
      var rest := Insert(t, s[1..], time);
      assert s == [s[0]] + s[1..];
      [s[0]] + rest
  }

  /** `.sort((a, b) => time(b) - time(a))`, as a stable insertion sort. */
  function SortNewestFirst(s: seq<ThreadDetailsWithId>, time: TimeOf): (r: seq<ThreadDetailsWithId>)
    ensures NewestFirst(r, time)
    ensures |r| == |s|
  {
    if s == [] then []
    else Insert(s[0], SortNewestFirst(s[1..], time), time)
  }

  lemma {:induction false} InsertPermutes(t: ThreadDetailsWithId, s: seq<ThreadDetailsWithId>, time: TimeOf)
    requires NewestFirst(s, time)
    ensures multiset(Insert(t, s, time)) == multiset(s) + multiset{t}
  {
    if !(s == [] || Time(t, time) >= Time(s[0], time)) {
      InsertPermutes(t, s[1..], time);
      assert s == [s[0]] + s[1..];
    }
  }

  /** The sort is a permutation: it loses and adds nothing. */
  lemma {:induction false} SortPermutes(s: seq<ThreadDetailsWithId>, time: TimeOf)
    ensures multiset(SortNewestFirst(s, time)) == multiset(s)
  {
    if s != [] {
      SortPermutes(s[1..], time);
      InsertPermutes(s[0], SortNewestFirst(s[1..], time), time);
      HeadTailMultiset(s);
    }
  }

  lemma HeadTailMultiset<T>(s: seq<T>)
    requires s != []
    ensures multiset(s) == multiset(s[1..]) + multiset{s[0]}
  {
    assert s == [s[0]] + s[1..];
  }

  /** `threadList`: the entries listed and sorted. */
  function ThreadList(entries: seq<Entry>, time: TimeOf): seq<ThreadDetailsWithId>
  {
    SortNewestFirst(ListEntries(entries), time)
  }

  const Untitled: string := "untitled conversation"

  /** The search predicate: the lowercased title contains the term, or the placeholder title does. */
  predicate Matches(t: ThreadDetailsWithId, term: string)
  {
    (t.details.title.Some? && Includes(ToLower(t.details.title.value), term)) || Includes(Untitled, term)
  }

  function MatchesTerm(term: string): ThreadDetailsWithId -> bool
  {
    t => Matches(t, term)
  }

  /** `searchValue.toLowerCase().trim()`. */
  function SearchTerm(searchValue: string): string
  {
    Trim(ToLower(searchValue))
  }

  /** `filteredThreadList`. */
  function FilteredThreadList(entries: seq<Entry>, searchValue: string, time: TimeOf): (r: seq<ThreadDetailsWithId>)
    ensures NewestFirst(r, time)
    ensures |r| <= |entries|
  {
    var list := ThreadList(entries, time);
    if Trim(searchValue) == "" then list
    else
      FilterKeepsNewestFirst(list, MatchesTerm(SearchTerm(searchValue)), time);
      SeqUtil.Filter(list, MatchesTerm(SearchTerm(searchValue)))
  }

  lemma {:induction false} FilterKeepsNewestFirst(s: seq<ThreadDetailsWithId>, p: ThreadDetailsWithId -> bool, time: TimeOf)
    requires NewestFirst(s, time)
    ensures NewestFirst(SeqUtil.Filter(s, p), time)
  {
    SeqUtil.FilterIsSubsequence(s, p);
    SubsequenceKeepsNewestFirst(SeqUtil.Filter(s, p), s, time);
  }

  lemma {:induction false} SubsequenceKeepsNewestFirst(a: seq<ThreadDetailsWithId>, b: seq<ThreadDetailsWithId>, time: TimeOf)
    requires SeqUtil.IsSubsequence(a, b) && NewestFirst(b, time)
    ensures NewestFirst(a, time)
    decreases |b|
  {
    if a != [] && b != [] {
      assert NewestFirst(b[1..], time) by {
        forall i, j | 0 <= i < j < |b[1..]| ensures Time(b[1..][i], time) >= Time(b[1..][j], time) {
          assert b[1..][i] == b[i + 1] && b[1..][j] == b[j + 1];
        }
      }
      if a[0] == b[0] && SeqUtil.IsSubsequence(a[1..], b[1..]) {
        SubsequenceKeepsNewestFirst(a[1..], b[1..], time);
        forall j | 0 < j < |a| ensures Time(a[0], time) >= Time(a[j], time) {
          SeqUtil.SubsequenceMember(a[1..], b[1..]);
          assert a[j] == a[1..][j - 1];
          assert a[j] in b[1..];
          var k :| 0 <= k < |b[1..]| && b[1..][k] == a[j];
          assert b[k + 1] == a[j];
        }
      } else {
        SubsequenceKeepsNewestFirst(a, b[1..], time);
      }
    }
  }

  // ---------------------------------------------------------------- properties

  /** Every listed thread is an entry of the record, carrying that entry's key as its id. */
  lemma ThreadIdsAreKeys(entries: seq<Entry>, searchValue: string, time: TimeOf, t: ThreadDetailsWithId)
    requires t in FilteredThreadList(entries, searchValue, time)
    ensures (t.threadId, t.details) in entries
  {
    ListedIff(entries, searchValue, time, t);
    SortKeepsMembers(ListEntries(entries), time, t);
    ListedEntry(entries, t);
  }

  lemma SortKeepsMembers(xs: seq<ThreadDetailsWithId>, time: TimeOf, t: ThreadDetailsWithId)
    requires t in SortNewestFirst(xs, time)
    ensures t in xs
  {
    SortPermutes(xs, time);
    assert t in multiset(SortNewestFirst(xs, time));
  }

  lemma ListedEntry(entries: seq<Entry>, t: ThreadDetailsWithId)
    requires t in ListEntries(entries)
    ensures (t.threadId, t.details) in entries
  {
    var listed := ListEntries(entries);
    var i :| 0 <= i < |listed| && listed[i] == t;
    assert entries[i] == (t.threadId, t.details);
  }

  /** A blank search lists every thread, newest first: the sort loses and adds nothing. */
  lemma BlankSearchListsAll(entries: seq<Entry>, searchValue: string, time: TimeOf)
    requires Trim(searchValue) == ""
    ensures FilteredThreadList(entries, searchValue, time) == ThreadList(entries, time)
    ensures multiset(FilteredThreadList(entries, searchValue, time)) == multiset(ListEntries(entries))
  {
    SortPermutes(ListEntries(entries), time);
  }

  /** A thread is listed iff it is in the sorted list and the search is blank or it matches. */
  lemma ListedIff(entries: seq<Entry>, searchValue: string, time: TimeOf, t: ThreadDetailsWithId)
    ensures t in FilteredThreadList(entries, searchValue, time) <==>
      t in ThreadList(entries, time) && (Trim(searchValue) == "" || Matches(t, SearchTerm(searchValue)))
  {
    if Trim(searchValue) != "" {
      SeqUtil.FilterMember(ThreadList(entries, time), MatchesTerm(SearchTerm(searchValue)), t);
    }
  }

  /** Filtering keeps the sorted list's order: the result is a subsequence of it. */
  lemma FilterKeepsOrder(entries: seq<Entry>, searchValue: string, time: TimeOf)
    ensures SeqUtil.IsSubsequence(FilteredThreadList(entries, searchValue, time), ThreadList(entries, time))
  {
    var list := ThreadList(entries, time);
    if Trim(searchValue) == "" {
      SeqUtil.FilterKeepsAll(list, _ => true);
      SeqUtil.FilterIsSubsequence(list, _ => true);
    } else {
      SeqUtil.FilterIsSubsequence(list, MatchesTerm(SearchTerm(searchValue)));
    }
  }

  /** A term that is part of "untitled conversation" matches every thread, titled or not. */
  lemma UntitledTermListsAll(entries: seq<Entry>, searchValue: string, time: TimeOf)
    requires Includes(Untitled, SearchTerm(searchValue))
    ensures FilteredThreadList(entries, searchValue, time) == ThreadList(entries, time)
  {
    var list := ThreadList(entries, time);
    if Trim(searchValue) != "" {
      SeqUtil.FilterKeepsAll(list, MatchesTerm(SearchTerm(searchValue)));
    }
  }

  /** A term outside the placeholder title lists exactly the threads whose lowercased title contains it. */
  lemma TitleSearch(entries: seq<Entry>, searchValue: string, time: TimeOf, t: ThreadDetailsWithId)
    requires Trim(searchValue) != "" && !Includes(Untitled, SearchTerm(searchValue))
    ensures t in FilteredThreadList(entries, searchValue, time) <==>
      t in ThreadList(entries, time) && t.details.title.Some? &&
      Includes(ToLower(t.details.title.value), SearchTerm(searchValue))
  {
    ListedIff(entries, searchValue, time, t);
  }

  // ---------------------------------------------------------------- handlers

  /** The navigations the sidebar's handlers have made, in order. */
  class Sidebar {
    const artistId: Option<string>
    const selectedThreadId: Option<string>
    var navigations: seq<string>

    constructor (artistId: Option<string>, selectedThreadId: Option<string>)
      ensures this.artistId == artistId && this.selectedThreadId == selectedThreadId
      ensures navigations == []
    {
      this.artistId := artistId;
      this.selectedThreadId := selectedThreadId;
      navigations := [];
    }

    /** `/artists/${artistId}`, where an absent id prints as "undefined". */
    function ArtistPath(): string
      reads this
    {
      "/artists/" + (if artistId.Some? then artistId.value else "undefined")
    }

    /**
     * `handleDelete`: delete the thread; only when that succeeds and the
     * thread is the selected one, navigate to the artist's page. A failed
     * delete is caught and nothing is navigated.
     */
    method HandleDelete(qc: QueryCache.QueryClient, thread: ThreadDetailsWithId, response: Result<(), string>)
      modifies this, qc
      ensures response.Success? && selectedThreadId == Some(thread.threadId) ==>
        navigations == old(navigations) + [ArtistPath()]
      ensures !(response.Success? && selectedThreadId == Some(thread.threadId)) ==>
        navigations == old(navigations)
      ensures response.Success? ==> qc.MessagesOf(thread.threadId) == []
      ensures response.Failure? ==> qc.messages == old(qc.messages) && qc.log == old(qc.log)
    {
      var r := UseChat.DeleteThreadMutation(qc, thread, response);
      if r.Success? && selectedThreadId == Some(thread.threadId) {
        navigations := navigations + [ArtistPath()];
      }
    }

    /** `handleNewChat`: without an artist id (absent or empty) nothing happens; otherwise go to "/". */
    method HandleNewChat()
      modifies this
      ensures (artistId.None? || artistId == Some("")) ==> navigations == old(navigations)
      ensures artistId.Some? && artistId.value != "" ==> navigations == old(navigations) + ["/"]
    {
      if artistId.None? || artistId.value == "" {
        return;
      }
      navigations := navigations + ["/"];
    }
  }
}
