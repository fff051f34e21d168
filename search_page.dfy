/** The search results page of the front end (frontend/pages/search.py):
    the session state that keeps the results shown so far, the offset of
    the last page fetched and whether the last page came back short; a new
    search that starts over, and "Load more" that fetches the next page.
    The HTTP client is a pair of functions passed in that answer null when
    a request fails (frontend/api/client.py). */
module SearchPage {
  import opened Values
  import opened Text

  /** The page size the app passes (frontend/app.py). */
  const PageSize: nat := 10

  /** client.search(query, offset, limit): the parsed JSON reply, or null. */
  type SearchCall = (string, int, int) -> Json

  /** client.get_recipe(recipe_id): the parsed JSON reply, or null. */
  type RecipeCall = Json -> Json

  /** The TypeErrors the page can raise while reading a reply. */
  datatype PageError =
    | NotIterable      // "search_results" holds a value that cannot be iterated
    | CardNotADict     // a truthy card that does not take item assignment

  /** The session-state keys the page owns. */
  datatype Snapshot = Snapshot(initialized: bool, results: seq<Json>, offset: int, finished: bool)

  /** Iterating over a Python value: a list gives its items, a string its
      characters, a dict its keys; anything else raises. */
  function Iterate(v: Json): (r: Result<seq<Json>, PageError>)
    ensures r.Ok? <==> v.JArr? || v.JStr? || v.JObj?
    ensures v.JArr? ==> r == Ok(v.items)
    ensures v.JStr? || v.JObj? ==> forall x :: x in r.value ==> x.JStr?
  {
    match v
    case JArr(xs) => Ok(xs)
    case JStr(s) => Ok(seq(|s|, i requires 0 <= i < |s| => JStr([s[i]])))
    case JObj(ms) => Ok(seq(|ms|, i requires 0 <= i < |ms| => JStr(ms[i].key)))
    case _ => Err(NotIterable)
  }

  /** The items of a search reply: resp.get("search_results", []) for a
      dict, the reply itself for a list, [] for anything else (a failed
      request included). */
  function Items(resp: Json): (r: Result<seq<Json>, PageError>)
    ensures !resp.JObj? ==> r.Ok?
    ensures resp.JArr? ==> r == Ok(resp.items)
    ensures !resp.JObj? && !resp.JArr? ==> r == Ok([])
    ensures resp.JObj? && Lookup(resp.members, "search_results").None? ==> r == Ok([])
    ensures resp.JObj? && Lookup(resp.members, "search_results").Some? ==>
      r == Iterate(Lookup(resp.members, "search_results").value)
  {
    match resp
    case JObj(ms) => Iterate(GetOr(ms, "search_results", JArr([])))
    case JArr(xs) => Ok(xs)
    case _ => Ok([])
  }

  /** What one item adds to the page: nothing when it is not a dict or
      has no recipe_id; else its card with the score attached when the
      card is truthy; else the fetched detail with the score attached when
      that is a dict; else a placeholder with only the id and the score. */
  function MapItem(it: Json, getRecipe: RecipeCall): (r: Result<Option<Json>, PageError>)
    ensures r.Ok? && r.value.None? <==> !it.JObj? || Get(it.members, "recipe_id").JNull?
    ensures r.Err? ==> it.JObj? && Truthy(Get(it.members, "card")) && !Get(it.members, "card").JObj?
    ensures r.Ok? && r.value.Some? ==>
      && r.value.value.JObj?
      && Lookup(r.value.value.members, "similarity_score") == Some(Get(it.members, "similarity_score"))
    ensures it.JObj? && !Get(it.members, "recipe_id").JNull? && Truthy(Get(it.members, "card"))
            && Get(it.members, "card").JObj? ==>
      r == Ok(Some(JObj(Set(Get(it.members, "card").members, "similarity_score", Get(it.members, "similarity_score")))))
    ensures it.JObj? && !Get(it.members, "recipe_id").JNull? && !Truthy(Get(it.members, "card"))
            && getRecipe(Get(it.members, "recipe_id")).JObj? ==>
      r == Ok(Some(JObj(Set(getRecipe(Get(it.members, "recipe_id")).members, "similarity_score",
                            Get(it.members, "similarity_score")))))
    ensures it.JObj? && !Get(it.members, "recipe_id").JNull? && !Truthy(Get(it.members, "card"))
            && !getRecipe(Get(it.members, "recipe_id")).JObj? ==>
      r == Ok(Some(Placeholder(Get(it.members, "recipe_id"), Get(it.members, "similarity_score"))))
  {
    if !it.JObj? then Ok(None)
    else
      var rid := Get(it.members, "recipe_id");
      var score := Get(it.members, "similarity_score");
      if rid.JNull? then Ok(None)
      else
        var card := Get(it.members, "card");
        if Truthy(card) then
          if card.JObj? then Ok(Some(JObj(Set(card.members, "similarity_score", score))))
          else Err(CardNotADict)
        else
          var detail := getRecipe(rid);
          if detail.JObj? then Ok(Some(JObj(Set(detail.members, "similarity_score", score))))
          else Ok(Some(Placeholder(rid, score)))
  }

  /** {"id": rid, "recipe_id": rid, "similarity_score": score}. */
  function Placeholder(rid: Json, score: Json): (r: Json)
    ensures r.JObj? && Get(r.members, "id") == rid && Get(r.members, "recipe_id") == rid
    ensures Lookup(r.members, "similarity_score") == Some(score)
  {
    var ms := [Member("id", rid), Member("recipe_id", rid), Member("similarity_score", score)];
    assert ms[1..] == [Member("recipe_id", rid), Member("similarity_score", score)];
    assert ms[1..][1..] == [Member("similarity_score", score)];
    assert Lookup(ms[1..][1..], "similarity_score") == Some(score);
    assert Lookup(ms[1..], "recipe_id") == Some(rid);
    JObj(ms)
  }

  /** The batch a list of items gives, in order; the first error stops it. */
  function MapItems(items: seq<Json>, getRecipe: RecipeCall): (r: Result<seq<Json>, PageError>)
    ensures r.Ok? ==> |r.value| <= |items|
  {
    if items == [] then Ok([])
    else match MapItems(items[..|items| - 1], getRecipe)
      case Err(e) => Err(e)
      case Ok(front) =>
        match MapItem(items[|items| - 1], getRecipe)
        case Err(e) => Err(e)
        case Ok(last) => Ok(front + if last.Some? then [last.value] else [])
  }

  lemma MapItemsStep(items: seq<Json>, i: nat, getRecipe: RecipeCall)
    requires i < |items| && MapItems(items[..i], getRecipe).Ok?
    ensures MapItems(items[..i + 1], getRecipe) ==
      match MapItem(items[i], getRecipe)
      case Err(e) => Err(e)
      case Ok(last) => Ok(MapItems(items[..i], getRecipe).value + if last.Some? then [last.value] else [])
  {
    assert items[..i + 1][..i] == items[..i];
    assert items[..i + 1][i] == items[i];
  }

  /** The batch of items + [it] is the batch of items followed by its
      entry, if it has one: entries keep the order of their items. */
  lemma MapItemsAppend(items: seq<Json>, it: Json, getRecipe: RecipeCall)
    requires MapItems(items, getRecipe).Ok?
    ensures MapItems(items + [it], getRecipe) ==
      match MapItem(it, getRecipe)
      case Err(e) => Err(e)
      case Ok(last) => Ok(MapItems(items, getRecipe).value + if last.Some? then [last.value] else [])
  {
    assert (items + [it])[..|items|] == items;
  }

  /** Once an item raises, the whole list raises. */
  lemma {:induction false} MapItemsErrSticks(items: seq<Json>, i: nat, getRecipe: RecipeCall)
    requires i <= |items| && MapItems(items[..i], getRecipe).Err?
    ensures MapItems(items, getRecipe) == MapItems(items[..i], getRecipe)
    decreases |items| - i
  {
    if i < |items| {
      assert items[..i + 1][..i] == items[..i];
      MapItemsErrSticks(items, i + 1, getRecipe);
    } else {
      assert items[..i] == items;
    }
  }

  /** One request for a page and the batch it gives. */
  function Fetch(query: string, offset: int, pageSize: nat, search: SearchCall, getRecipe: RecipeCall)
    : (r: Result<seq<Json>, PageError>)
    ensures Items(search(query, offset, pageSize)).Err? ==> r == Err(Items(search(query, offset, pageSize)).error)
    ensures Items(search(query, offset, pageSize)).Ok? ==> r == MapItems(Items(search(query, offset, pageSize)).value, getRecipe)
    ensures r.Ok? ==> |r.value| <= |Items(search(query, offset, pageSize)).value|
    ensures search(query, offset, pageSize) == JNull ==> r == Ok([])
  {
    match Items(search(query, offset, pageSize))
    case Err(e) => Err(e)
    case Ok(items) => MapItems(items, getRecipe)
  }

  /** results.extend(batch); a short batch sets finished. */
  function Absorb(s: Snapshot, batch: seq<Json>, pageSize: nat): (r: Snapshot)
    ensures r.initialized == s.initialized && r.offset == s.offset
    ensures |r.results| == |s.results| + |batch|
    ensures r.results[..|s.results|] == s.results && r.results[|s.results|..] == batch
    ensures r.finished <==> s.finished || |batch| < pageSize
  {
    s.(results := s.results + batch, finished := s.finished || |batch| < pageSize)
  }

  /** A new search was asked for: the button was clicked with a non-blank
      query. */
  predicate NewSearch(query: string, searchClicked: bool)
  {
    searchClicked && Strip(query) != []
  }

  /** "Load more" is on screen: there are results and the last page was
      not short. */
  predicate LoadMoreShown(s: Snapshot)
  {
    s.results != [] && !s.finished
  }

  /** The keys the first run creates. */
  function Init(s: Snapshot): Snapshot
  {
    if s.initialized then s else Snapshot(true, [], 0, false)
  }

  /** A new search: reset, then fetch the page at offset 0. */
  function NewSearchStep(s: Snapshot, query: string, pageSize: nat, search: SearchCall, getRecipe: RecipeCall)
    : (r: (Option<PageError>, Snapshot))
    ensures r.1.initialized == s.initialized && r.1.offset == 0
    ensures r.0.None? <==> Fetch(query, 0, pageSize, search, getRecipe).Ok?
    ensures r.0.None? ==>
      var batch := Fetch(query, 0, pageSize, search, getRecipe).value;
      r.1.results == batch && (r.1.finished <==> |batch| < pageSize)
    ensures r.0.Some? ==> r.1.results == [] && !r.1.finished
  {
    var reset := s.(offset := 0, results := [], finished := false);
    match Fetch(query, 0, pageSize, search, getRecipe)
    case Err(e) => (Some(e), reset)
    case Ok(batch) => (None, Absorb(reset, batch, pageSize))
  }

  /** "Load more": advance the offset by a page, then fetch there. */
  function LoadMoreStep(s: Snapshot, query: string, pageSize: nat, search: SearchCall, getRecipe: RecipeCall)
    : (r: (Option<PageError>, Snapshot))
    ensures r.1.initialized == s.initialized && r.1.offset == s.offset + pageSize
    ensures r.0.None? <==> Fetch(query, s.offset + pageSize, pageSize, search, getRecipe).Ok?
    ensures r.0.None? ==>
      var batch := Fetch(query, s.offset + pageSize, pageSize, search, getRecipe).value;
      r.1.results == s.results + batch && (r.1.finished <==> s.finished || |batch| < pageSize)
    ensures r.0.Some? ==> r.1 == s.(offset := s.offset + pageSize)
  {
    var advanced := s.(offset := s.offset + pageSize);
    match Fetch(query, advanced.offset, pageSize, search, getRecipe)
    case Err(e) => (Some(e), advanced)
    case Ok(batch) => (None, Absorb(advanced, batch, pageSize))
  }

  /** One run of render_search: the error it raises, if any, and the
      session state afterwards (a raised error leaves the state as it was
      at that point). */
  function Step(s: Snapshot, query: string, pageSize: nat, searchClicked: bool, loadMoreClicked: bool,
                search: SearchCall, getRecipe: RecipeCall): (r: (Option<PageError>, Snapshot))
    ensures r.1.initialized
    ensures !NewSearch(query, searchClicked) && !loadMoreClicked ==> r == (None, Init(s))
    ensures !NewSearch(query, searchClicked) && !LoadMoreShown(Init(s)) ==> r == (None, Init(s))
  {
    var first := if NewSearch(query, searchClicked) then NewSearchStep(Init(s), query, pageSize, search, getRecipe)
                 else (None, Init(s));
    if first.0.Some? || !LoadMoreShown(first.1) || !loadMoreClicked then first
    else LoadMoreStep(first.1, query, pageSize, search, getRecipe)
  }

  /** Every entry of a batch is a dict carrying the score of the item it
      came from; items that are not dicts or have no id add nothing. */
  lemma {:induction false} BatchEntriesScored(items: seq<Json>, getRecipe: RecipeCall)
    requires MapItems(items, getRecipe).Ok?
    ensures forall e :: e in MapItems(items, getRecipe).value ==>
      && e.JObj?
      && (exists it :: it in items && it.JObj? && !Get(it.members, "recipe_id").JNull?
            && Lookup(e.members, "similarity_score") == Some(Get(it.members, "similarity_score")))
  {
    if items != [] {
      var front := items[..|items| - 1];
      BatchEntriesScored(front, getRecipe);
      assert items[|items| - 1] in items;
      forall it | it in front
        ensures it in items
      {
      }
    }
  }

  /** Items that are all dicts with an id each add exactly one entry: the
      batch is as long as the item list, and its k-th entry is the one the
      k-th item gives. */
  lemma {:induction false} BatchKeepsIdentifiedItems(items: seq<Json>, getRecipe: RecipeCall)
    requires forall it :: it in items ==> it.JObj? && !Get(it.members, "recipe_id").JNull?
    requires MapItems(items, getRecipe).Ok?
    ensures |MapItems(items, getRecipe).value| == |items|
    ensures forall k :: 0 <= k < |items| ==> MapItem(items[k], getRecipe) == Ok(Some(MapItems(items, getRecipe).value[k]))
  {
    if items != [] {
      var front, last := items[..|items| - 1], items[|items| - 1];
      assert last in items;
      forall it | it in front
        ensures it in items
      {
      }
      BatchKeepsIdentifiedItems(front, getRecipe);
      var r, rf := MapItems(items, getRecipe).value, MapItems(front, getRecipe).value;
      assert r == rf + [MapItem(last, getRecipe).value.value];
      forall k | 0 <= k < |items|
        ensures MapItem(items[k], getRecipe) == Ok(Some(r[k]))
      {
        if k < |items| - 1 {
          assert items[k] == front[k] && r[k] == rf[k];
        }
      }
    }
  }

  /** A failed request answers null: the batch is empty, so the page
      marks itself finished. */
  lemma FailedRequestFinishes(s: Snapshot, query: string, offset: int, pageSize: nat, search: SearchCall,
                              getRecipe: RecipeCall)
    requires pageSize > 0 && search(query, offset, pageSize) == JNull
    ensures Fetch(query, offset, pageSize, search, getRecipe) == Ok([])
    ensures Absorb(s, [], pageSize).finished && Absorb(s, [], pageSize).results == s.results
  {
  }

  /** The first run sets results to [], offset to 0 and finished to false;
      without a new search nothing else happens. */
  lemma FirstRenderInitialises(s: Snapshot, query: string, pageSize: nat, loadMoreClicked: bool,
                               search: SearchCall, getRecipe: RecipeCall)
    requires !s.initialized
    ensures Step(s, query, pageSize, false, loadMoreClicked, search, getRecipe) == (None, Snapshot(true, [], 0, false))
  {
  }

  /** A new search starts over at offset 0: the results are the first
      batch alone, and finished says whether that batch was short. */
  lemma NewSearchStartsOver(s: Snapshot, query: string, pageSize: nat, search: SearchCall, getRecipe: RecipeCall)
    requires Strip(query) != []
    requires Fetch(query, 0, pageSize, search, getRecipe).Ok?
    ensures var batch := Fetch(query, 0, pageSize, search, getRecipe).value;
      Step(s, query, pageSize, true, false, search, getRecipe) ==
        (None, Snapshot(true, batch, 0, |batch| < pageSize))
  {
    var batch := Fetch(query, 0, pageSize, search, getRecipe).value;
    var r := NewSearchStep(Init(s), query, pageSize, search, getRecipe);
    assert Step(s, query, pageSize, true, false, search, getRecipe) == r;
    assert r.1 == Snapshot(true, batch, 0, |batch| < pageSize);
  }

  /** A click with a blank query changes nothing. */
  lemma BlankQueryChangesNothing(s: Snapshot, query: string, pageSize: nat, search: SearchCall, getRecipe: RecipeCall)
    requires s.initialized && Strip(query) == []
    ensures Step(s, query, pageSize, true, false, search, getRecipe) == (None, s)
  {
  }

  /** "Load more" advances the offset by exactly one page and appends the
      new batch after the results already shown. */
  lemma LoadMoreAppends(s: Snapshot, query: string, pageSize: nat, searchClicked: bool,
                        search: SearchCall, getRecipe: RecipeCall)
    requires s.initialized && !NewSearch(query, searchClicked) && LoadMoreShown(s)
    requires Fetch(query, s.offset + pageSize, pageSize, search, getRecipe).Ok?
    ensures var batch := Fetch(query, s.offset + pageSize, pageSize, search, getRecipe).value;
      Step(s, query, pageSize, searchClicked, true, search, getRecipe) ==
        (None, Snapshot(true, s.results + batch, s.offset + pageSize, |batch| < pageSize))
  {
    var batch := Fetch(query, s.offset + pageSize, pageSize, search, getRecipe).value;
    var r := LoadMoreStep(s, query, pageSize, search, getRecipe);
    assert Step(s, query, pageSize, searchClicked, true, search, getRecipe) == r;
    assert r.1 == Snapshot(true, s.results + batch, s.offset + pageSize, |batch| < pageSize);
  }

  /** Without a new search the results only grow at the end, finished is
      never cleared, and once finished the page stays exactly as it is. */
  lemma OnlyNewSearchResets(s: Snapshot, query: string, pageSize: nat, searchClicked: bool, loadMoreClicked: bool,
                            search: SearchCall, getRecipe: RecipeCall)
    requires s.initialized && !NewSearch(query, searchClicked)
    ensures var (_, s') := Step(s, query, pageSize, searchClicked, loadMoreClicked, search, getRecipe);
      && s'.results[..|s.results|] == s.results
      && (s.finished ==> s' == s)
  {
    var (_, s') := Step(s, query, pageSize, searchClicked, loadMoreClicked, search, getRecipe);
    assert |s.results| <= |s'.results|;
  }

  /** The offset stays a multiple of the page size. */
  lemma OffsetStaysMultiple(s: Snapshot, query: string, pageSize: nat, searchClicked: bool, loadMoreClicked: bool,
                            search: SearchCall, getRecipe: RecipeCall, k: nat)
    requires s.initialized ==> s.offset == k * pageSize
    ensures exists k': nat :: Step(s, query, pageSize, searchClicked, loadMoreClicked, search, getRecipe).1.offset == k' * pageSize
  {
    var j: nat := if NewSearch(query, searchClicked) || !s.initialized then 0 else k;
    StepOffset(s, query, pageSize, searchClicked, loadMoreClicked, search, getRecipe);
    OneMorePage(Step(s, query, pageSize, searchClicked, loadMoreClicked, search, getRecipe).1.offset, j, pageSize);
  }

  lemma OneMorePage(o: int, j: nat, pageSize: nat)
    requires o == j * pageSize || o == j * pageSize + pageSize
    ensures exists k': nat :: o == k' * pageSize
  {
    if o == j * pageSize {
      assert o == j * pageSize;
    } else {
      assert o == (j + 1) * pageSize;
    }
  }

  /** One run leaves the offset where it was (0 after a reset) or one page
      further on. */
  lemma StepOffset(s: Snapshot, query: string, pageSize: nat, searchClicked: bool, loadMoreClicked: bool,
                   search: SearchCall, getRecipe: RecipeCall)
    ensures var o := Step(s, query, pageSize, searchClicked, loadMoreClicked, search, getRecipe).1.offset;
      var base := if NewSearch(query, searchClicked) || !s.initialized then 0 else s.offset;
      o == base || o == base + pageSize
  {
    var first := if NewSearch(query, searchClicked) then NewSearchStep(Init(s), query, pageSize, search, getRecipe)
                 else (None, Init(s));
    StepOffsets(Init(s), query, pageSize, search, getRecipe);
    StepOffsets(first.1, query, pageSize, search, getRecipe);
  }

  lemma StepOffsets(s: Snapshot, query: string, pageSize: nat, search: SearchCall, getRecipe: RecipeCall)
    ensures NewSearchStep(s, query, pageSize, search, getRecipe).1.offset == 0
    ensures LoadMoreStep(s, query, pageSize, search, getRecipe).1.offset == s.offset + pageSize
  {
  }

  /** The mapping loop of render_search, run over the items of one reply. */
  method MapBatch(items: seq<Json>, getRecipe: RecipeCall) returns (r: Result<seq<Json>, PageError>)
    ensures r == MapItems(items, getRecipe)
  {
    var results: seq<Json> := [];
    for i := 0 to |items|
      invariant MapItems(items[..i], getRecipe) == Ok(results)
    {
      var it := items[i];
      if !it.JObj? {
        assert MapItem(it, getRecipe) == Ok(None);
        MapItemsStep(items, i, getRecipe);
        assert results + [] == results;
        continue;
      }
      var rid := Get(it.members, "recipe_id");
      var score := Get(it.members, "similarity_score");
      if rid.JNull? {
        assert MapItem(it, getRecipe) == Ok(None);
        MapItemsStep(items, i, getRecipe);
        assert results + [] == results;
        continue;
      }
      var card := Get(it.members, "card");
      var entry: Json;
      if Truthy(card) {
        if !card.JObj? {
          assert MapItem(it, getRecipe) == Err(CardNotADict);
          MapItemsStep(items, i, getRecipe);
          MapItemsErrSticks(items, i + 1, getRecipe);
          return Err(CardNotADict);
        }
        entry := JObj(Set(card.members, "similarity_score", score));
      } else {
        var detail := getRecipe(rid);
        if detail.JObj? {
          entry := JObj(Set(detail.members, "similarity_score", score));
        } else {
          entry := Placeholder(rid, score);
        }
      }
      assert MapItem(it, getRecipe) == Ok(Some(entry));
      MapItemsStep(items, i, getRecipe);
      results := results + [entry];
    }
    assert items[..|items|] == items;
    r := Ok(results);
  }

  /** One request and its batch. */
  method FetchBatch(query: string, offset: int, pageSize: nat, search: SearchCall, getRecipe: RecipeCall)
    returns (r: Result<seq<Json>, PageError>)
    ensures r == Fetch(query, offset, pageSize, search, getRecipe)
  {
    var resp := search(query, offset, pageSize);
    var items: seq<Json> := [];
    if resp.JObj? {
      var found := Iterate(GetOr(resp.members, "search_results", JArr([])));
      if found.Err? {
        return Err(found.error);
      }
      items := found.value;
    } else if resp.JArr? {
      items := resp.items;
    }
    r := MapBatch(items, getRecipe);
  }

  /** Streamlit's session state for the search page. */
  class SearchState {
    var initialized: bool
    var results: seq<Json>
    var offset: int
    var finished: bool

    function Snap(): Snapshot
      reads this
    {
      Snapshot(initialized, results, offset, finished)
    }

    /** A new browser session holds none of the page's keys. */
    constructor()
      ensures !initialized && results == [] && offset == 0 && !finished
    {
      initialized := false;
      results := [];
      offset := 0;
      finished := false;
    }

    /** render_search(query, page_size, search_clicked), with the "Load
        more" button's click as an input. */
    method Render(query: string, pageSize: nat, searchClicked: bool, loadMoreClicked: bool,
                  search: SearchCall, getRecipe: RecipeCall)
      returns (error: Option<PageError>)
      modifies this
      ensures (error, Snap()) == Step(old(Snap()), query, pageSize, searchClicked, loadMoreClicked, search, getRecipe)
    {
      if !initialized {
        initialized := true;
        results := [];
        offset := 0;
        finished := false;
      }
      assert Snap() == Init(old(Snap()));
      ghost var first := if NewSearch(query, searchClicked)
        then NewSearchStep(Init(old(Snap())), query, pageSize, search, getRecipe)
        else (None, Init(old(Snap())));
      error := None;
      if searchClicked && Strip(query) != [] {
        error := StartSearch(query, pageSize, search, getRecipe);
        if error.Some? {
          return;
        }
      }
      assert (error, Snap()) == first;
      if results != [] && !finished && loadMoreClicked {
        error := LoadMore(query, pageSize, search, getRecipe);
      }
    }

    /** The new-search branch of render_search. */
    method StartSearch(query: string, pageSize: nat, search: SearchCall, getRecipe: RecipeCall)
      returns (error: Option<PageError>)
      modifies this
      ensures (error, Snap()) == NewSearchStep(old(Snap()), query, pageSize, search, getRecipe)
    {
      offset := 0;
      results := [];
      finished := false;
      var batch := FetchBatch(query, offset, pageSize, search, getRecipe);
      if batch.Err? {
        return Some(batch.error);
      }
      results := results + batch.value;
      if |batch.value| < pageSize {
        finished := true;
      }
      error := None;
    }

    /** The "Load more" branch of render_search. */
    method LoadMore(query: string, pageSize: nat, search: SearchCall, getRecipe: RecipeCall)
      returns (error: Option<PageError>)
      modifies this
      ensures (error, Snap()) == LoadMoreStep(old(Snap()), query, pageSize, search, getRecipe)
    {
      offset := offset + pageSize;
      var batch := FetchBatch(query, offset, pageSize, search, getRecipe);
      if batch.Err? {
        return Some(batch.error);
      }
      results := results + batch.value;
      if |batch.value| < pageSize {
        finished := true;
      }
      error := None;
    }
  }
}
