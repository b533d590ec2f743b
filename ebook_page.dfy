/**
 * The ebook library page: the search box over the books' catalogue fields,
 * the reading-time label on each card, and the reader dialog with its
 * fullscreen switch.
 */
module EbookPage {
  import opened Optional
  import opened Text
  import opened Search

  datatype Ebook = Ebook(
    id: string,
    title: string,
    author: string,
    description: string,
    content: string,
    category: string,
    publishDate: string,
    readingTime: int)

  // ---------------------------------------------------------------------------
  // Search

  /**
   * The card test: the lower-cased title, author, description or category
   * contains the lower-cased query. The book's content is not searched; the
   * empty query occurs in every field.
   */
  predicate Matches(e: Ebook, query: string)
    ensures query == "" ==> Matches(e, query)
  {
    var q := ToLower(query);
    || Includes(ToLower(e.title), q)
    || Includes(ToLower(e.author), q)
    || Includes(ToLower(e.description), q)
    || Includes(ToLower(e.category), q)
  }

  /** The search effect: a query that is blank once trimmed shows every book, any other filters them. */
  function FilterEbooks(ebooks: seq<Ebook>, query: string): (r: seq<Ebook>)
    ensures IsBlank(query) ==> r == ebooks
    ensures |r| <= |ebooks|
  {
    if IsBlank(query) then ebooks else Filter(ebooks, e => Matches(e, query))
  }

  /** A query that is not blank keeps exactly the books that match it as typed, untrimmed. */
  lemma FilterEbooksKeepsMatches(ebooks: seq<Ebook>, query: string)
    requires !IsBlank(query)
    ensures forall e :: e in FilterEbooks(ebooks, query) <==> e in ebooks && Matches(e, query)
  {
    FilterMembers(ebooks, e => Matches(e, query));
  }

  /** The result keeps the list's order and adds nothing. */
  lemma FilterEbooksIsSubsequence(ebooks: seq<Ebook>, query: string)
    ensures IsSubsequence(FilterEbooks(ebooks, query), ebooks)
  {
    if IsBlank(query) {
      SubsequenceReflexive(ebooks);
    } else {
      FilterIsSubsequence(ebooks, e => Matches(e, query));
    }
  }

  /** A query made only of spaces, tabs, line breaks and the like shows every book. */
  lemma WhitespaceQueryShowsAll(ebooks: seq<Ebook>, query: string)
    requires forall i :: 0 <= i < |query| ==> IsTrimmable(query[i])
    ensures FilterEbooks(ebooks, query) == ebooks
  {
    BlankIff(query);
  }

  /** Whether a book is found never depends on its content: replacing the content changes nothing. */
  lemma ContentNotSearched(ebooks: seq<Ebook>, query: string, e: Ebook, content: string)
    requires !IsBlank(query)
    ensures e in FilterEbooks(ebooks, query) <==> e in ebooks && Matches(e.(content := content), query)
  {
    FilterEbooksKeepsMatches(ebooks, query);
  }

  /** On a one-book list a query that is not blank keeps the book exactly when it matches. */
  lemma FilterOne(e: Ebook, query: string)
    requires !IsBlank(query)
    ensures FilterEbooks([e], query) == if Matches(e, query) then [e] else []
  {
    assert [e][1..] == [];
  }

  /** A book whose content alone contains the query is not found. */
  lemma ContentOnlyMatchExcluded()
    ensures var e := Ebook("1", "X", "", "", "go", "", "", 5);
      FilterEbooks([e], "go") == []
  {
    var e := Ebook("1", "X", "", "", "go", "", "", 5);
    assert Trim("go") == "go";
    assert ToLower("go") == "go";
    assert ToLower("X") == "x";
    assert !Includes("x", "go") && !Includes("", "go");
    FilterOne(e, "go");
  }

  // ---------------------------------------------------------------------------
  // Reading-time label

  const ReadingTimeSuffix: string := " min read"

  /** `formatReadingTime`: the number of minutes in decimal, then ` min read`. */
  function FormatReadingTime(minutes: int): (r: string)
    ensures |r| > |ReadingTimeSuffix| && r[|r| - |ReadingTimeSuffix|..] == ReadingTimeSuffix
  {
    IntToString(minutes) + ReadingTimeSuffix
  }

  /** Reads a reading-time label back into its number of minutes. */
  function ParseReadingTime(text: string): Option<int> {
    var n := |ReadingTimeSuffix|;
    if |text| >= n && text[|text| - n..] == ReadingTimeSuffix then ParseInt(text[..|text| - n]) else None
  }

  /** The label gives back the number it shows, so different reading times get different labels. */
  lemma FormatReadingTimeRoundTrip(minutes: int)
    ensures ParseReadingTime(FormatReadingTime(minutes)) == Some(minutes)
  {
    var r := FormatReadingTime(minutes);
    assert r[..|r| - |ReadingTimeSuffix|] == IntToString(minutes);
    ParseIntToString(minutes);
  }

  // ---------------------------------------------------------------------------
  // The page component

  const LoadErrorMessage: string := "Failed to load ebooks. Please try again later."

  class Library {
    var ebooks: seq<Ebook>
    var filteredEbooks: seq<Ebook>
    var currentEbook: Option<Ebook>
    var isReaderOpen: bool
    var searchQuery: string
    var loading: bool
    var error: Option<string>
    var isFullscreen: bool

    /** Once the search effect has run, the cards shown are the search result for the current query. */
    ghost predicate Valid()
      reads this
    {
      filteredEbooks == FilterEbooks(ebooks, searchQuery)
    }

    /** The first render: nothing loaded, the reader closed. */
    constructor ()
      ensures Valid()
      ensures ebooks == [] && filteredEbooks == [] && searchQuery == ""
      ensures currentEbook == None && !isReaderOpen && !isFullscreen && loading && error == None
    {
      ebooks, filteredEbooks := [], [];
      currentEbook, isReaderOpen, isFullscreen := None, false, false;
      searchQuery, loading, error := "", true, None;
    }

    /** The sample books are in: they become the library. */
    method LoadEbooks(books: seq<Ebook>)
      requires Valid()
      modifies this
      ensures Valid()
      ensures ebooks == books && filteredEbooks == FilterEbooks(books, searchQuery)
      ensures error == None && !loading
      ensures searchQuery == old(searchQuery) && currentEbook == old(currentEbook)
      ensures isReaderOpen == old(isReaderOpen) && isFullscreen == old(isFullscreen)
    {
      ebooks := books;
      filteredEbooks := FilterEbooks(books, searchQuery);
      error := None;
      loading := false;
    }

    /** Loading failed: an error is shown and the library stays as it was. */
    method FailLoad()
      requires Valid()
      modifies this
      ensures Valid()
      ensures error == Some(LoadErrorMessage) && !loading
      ensures ebooks == old(ebooks) && filteredEbooks == old(filteredEbooks) && searchQuery == old(searchQuery)
      ensures currentEbook == old(currentEbook) && isReaderOpen == old(isReaderOpen) && isFullscreen == old(isFullscreen)
    {
      error := Some(LoadErrorMessage);
      loading := false;
    }

    /** Typing in the search box, followed by the search effect. */
    method SetSearchQuery(query: string)
      requires Valid()
      modifies this
      ensures Valid()
      ensures searchQuery == query && filteredEbooks == FilterEbooks(ebooks, query)
      ensures ebooks == old(ebooks) && loading == old(loading) && error == old(error)
      ensures currentEbook == old(currentEbook) && isReaderOpen == old(isReaderOpen) && isFullscreen == old(isFullscreen)
    {
      searchQuery := query;
      filteredEbooks := FilterEbooks(ebooks, query);
    }

    /** Clicking a card: the reader opens on that book. */
    method HandleOpenReader(e: Ebook)
      requires Valid()
      modifies this
      ensures Valid()
      ensures currentEbook == Some(e) && isReaderOpen
      ensures isFullscreen == old(isFullscreen)
      ensures ebooks == old(ebooks) && filteredEbooks == old(filteredEbooks) && searchQuery == old(searchQuery)
      ensures loading == old(loading) && error == old(error)
    {
      currentEbook := Some(e);
      isReaderOpen := true;
    }

    /** Closing the reader: closed, no current book, and fullscreen off, whatever the state before. */
    method HandleCloseReader()
      requires Valid()
      modifies this
      ensures Valid()
      ensures !isReaderOpen && currentEbook == None && !isFullscreen
      ensures ebooks == old(ebooks) && filteredEbooks == old(filteredEbooks) && searchQuery == old(searchQuery)
      ensures loading == old(loading) && error == old(error)
    {
      isReaderOpen := false;
      currentEbook := None;
      isFullscreen := false;
    }

    /** The fullscreen button: flips fullscreen and nothing else. */
    method ToggleFullscreen()
      requires Valid()
      modifies this
      ensures Valid()
      ensures isFullscreen == !old(isFullscreen)
      ensures currentEbook == old(currentEbook) && isReaderOpen == old(isReaderOpen)
      ensures ebooks == old(ebooks) && filteredEbooks == old(filteredEbooks) && searchQuery == old(searchQuery)
      ensures loading == old(loading) && error == old(error)
    {
      isFullscreen := !isFullscreen;
    }
  }

  /** Toggling fullscreen twice restores the page exactly. */
  method ToggleFullscreenTwice(library: Library)
    requires library.Valid()
    modifies library
    ensures library.Valid()
    ensures library.isFullscreen == old(library.isFullscreen)
    ensures library.currentEbook == old(library.currentEbook) && library.isReaderOpen == old(library.isReaderOpen)
    ensures library.ebooks == old(library.ebooks) && library.filteredEbooks == old(library.filteredEbooks)
    ensures library.searchQuery == old(library.searchQuery)
    ensures library.loading == old(library.loading) && library.error == old(library.error)
  {
    library.ToggleFullscreen();
    library.ToggleFullscreen();
  }
}
