/**
 * The client-side history of generated blog posts: the list kept in the
 * browser's local storage under `blogHistory`, the history page's copy of it,
 * its search-filtered view, and the delete and clear actions.
 */
module History {
  import opened Text
  import opened Lists

  /** One generated blog post as kept in the `blogHistory` list. */
  datatype BlogEntry = BlogEntry(
    id: int, title: string, tone: string, length: int,
    keywords: string, content: string, date: string)

  /** One generated email as kept in the `emailHistory` list. */
  datatype EmailEntry = EmailEntry(
    id: int, subject: string, tone: string, length: int,
    context: string, content: string, date: string)

  /**
   * The browser's local storage, holding the two history lists already
   * decoded from JSON. A key never written reads as the empty list.
   */
  class LocalStorage {
    var blogHistory: seq<BlogEntry>
    var emailHistory: seq<EmailEntry>

    constructor ()
      ensures blogHistory == [] && emailHistory == []
    {
      blogHistory := [];
      emailHistory := [];
    }
  }

  // ---------------------------------------------------------------------------
  // Search

  /** The lower-cased title, content or keywords include the lower-cased term. */
  predicate Matches(e: BlogEntry, term: string) {
    var t := Lower(term);
    Contains(Lower(e.title), t) || Contains(Lower(e.content), t) || Contains(Lower(e.keywords), t)
  }

  function MatchesTerm(term: string): BlogEntry -> bool {
    (e: BlogEntry) => Matches(e, term)
  }

  /**
   * The filtered view for a search term: the whole history for an empty term,
   * otherwise the entries the term matches, in their original order.
   */
  function Search(history: seq<BlogEntry>, term: string): (r: seq<BlogEntry>)
    ensures term == "" ==> r == history
    ensures IsSubsequence(r, history)
    ensures forall e :: multiset(r)[e] == if Matches(e, term) then multiset(history)[e] else 0
  {
    EveryEntryMatchesEmptyTerm();
    FilterIsSubsequence(history, MatchesTerm(term));
    FilterCount(history, MatchesTerm(term));
    SubsequenceOfSelf(history);
    if term != "" then Filter(history, MatchesTerm(term)) else history
  }

  lemma EveryEntryMatchesEmptyTerm()
    ensures forall e :: Matches(e, "")
  {
    forall e: BlogEntry ensures Matches(e, "") {
      ContainsEmpty(Lower(e.title));
    }
  }

  /** The empty-term shortcut agrees with filtering: every entry matches the empty term. */
  lemma EmptyTermSearchIsFilter(history: seq<BlogEntry>)
    ensures Search(history, "") == Filter(history, MatchesTerm(""))
  {
    EveryEntryMatchesEmptyTerm();
    FilterKeepsAll(history, MatchesTerm(""));
  }

  /** Searching is case-insensitive: a term and its lower-case form find the same entries. */
  lemma SearchIgnoresCase(history: seq<BlogEntry>, term: string)
    ensures Search(history, term) == Search(history, Lower(term))
  {
    LowerIdempotent(term);
    if term != "" {
      assert Lower(term) != "";
      FilterCongruent(history, MatchesTerm(term), MatchesTerm(Lower(term)));
    }
  }

  // ---------------------------------------------------------------------------
  // Delete

  function HasOtherId(id: int): BlogEntry -> bool {
    (e: BlogEntry) => e.id != id
  }

  /** The history after deleting `id`: every entry with that id goes, the rest keep their order. */
  function WithoutId(history: seq<BlogEntry>, id: int): (r: seq<BlogEntry>)
    ensures IsSubsequence(r, history)
    ensures forall i :: 0 <= i < |r| ==> r[i].id != id
    ensures forall e :: multiset(r)[e] == if e.id == id then 0 else multiset(history)[e]
    ensures (forall i :: 0 <= i < |history| ==> history[i].id != id) ==> r == history
  {
    FilterIsSubsequence(history, HasOtherId(id));
    FilterCount(history, HasOtherId(id));
    FilterKeepsAll(history, HasOtherId(id));
    Filter(history, HasOtherId(id))
  }

  /** Deleting under an active search: the filtered view loses exactly the deleted entries. */
  lemma DeleteCommutesWithSearch(history: seq<BlogEntry>, id: int, term: string)
    ensures Search(WithoutId(history, id), term) == WithoutId(Search(history, term), id)
  {
    if term != "" {
      FilterCommute(history, HasOtherId(id), MatchesTerm(term));
    }
  }

  // ---------------------------------------------------------------------------
  // The history page

  class BlogHistory {
    const storage: LocalStorage
    var blogHistory: seq<BlogEntry>
    var filteredHistory: seq<BlogEntry>
    var searchTerm: string

    /** Mounting the page loads the stored list into the history and the filtered view. */
    constructor (storage: LocalStorage)
      ensures this.storage == storage
      ensures blogHistory == storage.blogHistory
      ensures filteredHistory == storage.blogHistory
      ensures searchTerm == ""
    {
      this.storage := storage;
      blogHistory := storage.blogHistory;
      filteredHistory := storage.blogHistory;
      searchTerm := "";
    }

    /** The search effect, re-run whenever the term or the history changes. */
    method ApplySearch()
      modifies this`filteredHistory
      ensures filteredHistory == Search(blogHistory, searchTerm)
    {
      if searchTerm != "" {
        filteredHistory := Filter(blogHistory, MatchesTerm(searchTerm));
      } else {
        filteredHistory := blogHistory;
      }
    }

    /** Typing in the search box: the term changes and the search effect runs. */
    method SetSearchTerm(term: string)
      modifies this`searchTerm, this`filteredHistory
      ensures searchTerm == term
      ensures filteredHistory == Search(blogHistory, term)
    {
      searchTerm := term;
      ApplySearch();
    }

    /** Deleting one post: both views and the stored list become the history without it. */
    method DeleteBlog(id: int)
      modifies this`blogHistory, this`filteredHistory, storage`blogHistory
      ensures blogHistory == WithoutId(old(blogHistory), id)
      ensures filteredHistory == blogHistory
      ensures storage.blogHistory == blogHistory
      ensures searchTerm == old(searchTerm)
    {
      var updated := Filter(blogHistory, HasOtherId(id));
      blogHistory := updated;
      filteredHistory := updated;
      storage.blogHistory := updated;
    }

    /** Clearing: the history, the filtered view and the stored list all become empty. */
    method ClearHistory()
      modifies this`blogHistory, this`filteredHistory, storage`blogHistory
      ensures blogHistory == [] && filteredHistory == [] && storage.blogHistory == []
      ensures searchTerm == old(searchTerm)
    {
      blogHistory := [];
      filteredHistory := [];
      storage.blogHistory := [];
    }
  }
}
