/** The event list screen: the category and title filter over the loaded
    events, and the state updates of refreshing and loading more pages. */
module Events {
  import opened Results
  import opened Sequences

  datatype Event = Event(id: string, title: string, category: string)

  /** The opaque cursor (last document read) that asks for the next page. */
  datatype Cursor = Cursor(position: nat)

  /** What `fetchEvents` returns: one page of events and the cursor after it. */
  datatype Page = Page(events: seq<Event>, lastVisible: Option<Cursor>)

  /** `haystack.includes(needle)`: `needle` occurs in `haystack` as a contiguous block. */
  predicate Contains(haystack: string, needle: string)
    decreases |haystack|
  {
    needle <= haystack || (haystack != [] && Contains(haystack[1..], needle))
  }

  /** The title test of the search box, with the case folding `lower` given. */
  predicate TitleMatches(e: Event, search: string, lower: string -> string)
  {
    Contains(lower(e.title), lower(search))
  }

  /** The one predicate the four branches of the filter amount to. */
  predicate Matches(e: Event, categories: seq<string>, search: string, lower: string -> string)
  {
    (|categories| == 0 || e.category in categories) && (search == "" || TitleMatches(e, search, lower))
  }

  /** The `filteredEvents` switch, branch by branch as written. Whatever the
      filters, the result is an order-preserving sublist of the loaded events,
      and with no filter active it is all of them. */
  function FilteredEvents(events: seq<Event>, categories: seq<string>, search: string, lower: string -> string): (r: seq<Event>)
    ensures IsSublist(r, events)
    ensures |categories| == 0 && search == "" ==> r == events
  {
    if |categories| > 0 && search != "" then
      var keep := (e: Event) => TitleMatches(e, search, lower) && (|categories| == 0 || e.category in categories);
      FilterIsSublist(events, keep);
      Filter(events, keep)
    else if |categories| > 0 then
      var keep := (e: Event) => e.category in categories;
      FilterIsSublist(events, keep);
      Filter(events, keep)
    else if search != "" then
      var keep := (e: Event) => TitleMatches(e, search, lower);
      FilterIsSublist(events, keep);
      Filter(events, keep)
    else
      SublistReflexive(events);
      events
  }

  /** The four branches together keep exactly the events satisfying Matches
      (the `length === 0` test of the first branch never decides anything). */
  lemma OnePredicate(events: seq<Event>, categories: seq<string>, search: string, lower: string -> string)
    ensures FilteredEvents(events, categories, search, lower)
            == Filter(events, (e: Event) => Matches(e, categories, search, lower))
  {
    var all := e => Matches(e, categories, search, lower);
    if |categories| > 0 && search != "" {
      FilterCongruent(events, (e: Event) => TitleMatches(e, search, lower) && (|categories| == 0 || e.category in categories), all);
    } else if |categories| > 0 {
      FilterCongruent(events, (e: Event) => e.category in categories, all);
    } else if search != "" {
      FilterCongruent(events, (e: Event) => TitleMatches(e, search, lower), all);
    } else {
      FilterKeepsAll(events, all);
    }
  }

  /** An event is shown exactly when it is loaded and passes the active filters. */
  lemma FilteredMembers(events: seq<Event>, categories: seq<string>, search: string, lower: string -> string, e: Event)
    ensures e in FilteredEvents(events, categories, search, lower)
            <==> e in events && Matches(e, categories, search, lower)
  {
    OnePredicate(events, categories, search, lower);
    FilterMembers(events, x => Matches(x, categories, search, lower), e);
  }

  /** A fetch request: the cursor passed to `fetchEvents`, and whether the
      load-more flag was up while the request was outstanding. */
  datatype FetchCall = FetchCall(cursor: Option<Cursor>, loadingMore: bool)

  class EventsScreen {
    var events: seq<Event>
    var selectedCategories: seq<string>
    var selectedSearch: string
    var refreshing: bool
    var lastVisible: Option<Cursor>
    var loadingMore: bool
    /** Every fetch request the screen has made, oldest first. */
    ghost var fetches: seq<FetchCall>

    constructor ()
      ensures events == [] && selectedCategories == [] && selectedSearch == ""
      ensures refreshing && lastVisible == None && !loadingMore && fetches == []
    {
      events, selectedCategories, selectedSearch := [], [], "";
      refreshing, lastVisible, loadingMore := true, None, false;
      fetches := [];
    }

    /** The list the screen renders (`data={filteredEvents}`): the loaded
        events that pass the active filters, in their loaded order. */
    function Shown(lower: string -> string): (shown: seq<Event>)
      reads this
      ensures IsSublist(shown, events)
      ensures forall e :: e in shown <==> e in events && Matches(e, selectedCategories, selectedSearch, lower)
      ensures |selectedCategories| == 0 && selectedSearch == "" ==> shown == events
    {
      var shown := FilteredEvents(events, selectedCategories, selectedSearch, lower);
      assert forall e :: e in shown <==> e in events && Matches(e, selectedCategories, selectedSearch, lower) by {
        forall e
          ensures e in shown <==> e in events && Matches(e, selectedCategories, selectedSearch, lower)
        {
          FilteredMembers(events, selectedCategories, selectedSearch, lower, e);
        }
      }
      shown
    }

    /** `fetchData(isLoadMore)`: request a page (from the current cursor when
        loading more, from the start otherwise); a refresh replaces the list
        and the cursor, a load-more appends and moves the cursor only past a
        non-empty page; a failed request changes neither. Both flags drop. */
    method FetchData(isLoadMore: bool, page: Outcome<Page>)
      modifies this
      ensures fetches == old(fetches) + [FetchCall(if isLoadMore then old(lastVisible) else None, old(loadingMore))]
      ensures page.Err? ==> events == old(events) && lastVisible == old(lastVisible)
      ensures page.Ok? && !isLoadMore ==> events == page.value.events && lastVisible == page.value.lastVisible
      ensures page.Ok? && isLoadMore ==>
                events == old(events) + page.value.events
                && lastVisible == (if |page.value.events| > 0 then page.value.lastVisible else old(lastVisible))
      ensures isLoadMore ==> old(events) <= events
      ensures !refreshing && !loadingMore
      ensures selectedCategories == old(selectedCategories) && selectedSearch == old(selectedSearch)
    {
      fetches := fetches + [FetchCall(if isLoadMore then lastVisible else None, loadingMore)];
      if page.Err? {
        refreshing := false;
        loadingMore := false;
        return;
      }
      var newEvents, newLastVisible := page.value.events, page.value.lastVisible;
      if isLoadMore {
        if |newEvents| > 0 {
          events := events + newEvents;
          lastVisible := newLastVisible;
        }
      } else {
        events := newEvents;
        lastVisible := newLastVisible;
      }
      refreshing := false;
      loadingMore := false;
    }

    /** `handleLoadMore`: only when no load is running and a cursor exists,
        raise the load-more flag and fetch the next page from that cursor. */
    method HandleLoadMore(page: Outcome<Page>) returns (started: bool)
      modifies this
      ensures started <==> !old(loadingMore) && old(lastVisible).Some?
      ensures started ==> fetches == old(fetches) + [FetchCall(old(lastVisible), true)]
      ensures started && page.Ok? ==>
                events == old(events) + page.value.events
                && lastVisible == (if |page.value.events| > 0 then page.value.lastVisible else old(lastVisible))
      ensures started && page.Err? ==> events == old(events) && lastVisible == old(lastVisible)
      ensures started ==> !refreshing && !loadingMore
      ensures !started ==> events == old(events) && lastVisible == old(lastVisible) && fetches == old(fetches)
                           && refreshing == old(refreshing) && loadingMore == old(loadingMore)
      ensures selectedCategories == old(selectedCategories) && selectedSearch == old(selectedSearch)
    {
      started := !loadingMore && lastVisible.Some?;
      if started {
        loadingMore := true;
        FetchData(true, page);
      }
    }

    /** `handleCategoryChange`: select the given categories. */
    method HandleCategoryChange(categories: seq<string>)
      modifies this`selectedCategories
      ensures selectedCategories == categories
      ensures forall lower: string -> string :: Shown(lower) == FilteredEvents(old(events), categories, old(selectedSearch), lower)
    {
      selectedCategories := categories;
    }

    /** `handleSearchChange`: set the search text. */
    method HandleSearchChange(search: string)
      modifies this`selectedSearch
      ensures selectedSearch == search
      ensures forall lower: string -> string :: Shown(lower) == FilteredEvents(old(events), old(selectedCategories), search, lower)
    {
      selectedSearch := search;
    }
  }
}
