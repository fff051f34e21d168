/** The HTTP endpoints (app/api/search.py) over the runtime globals of
    app/core/config.py: POST /search checks that the resources are loaded,
    creates the search service on first use, runs the search pipeline for
    the top 100 hits and returns one page of them; GET /recipe/{id} picks
    between 500, 404 and the recipe's detail. */
module SearchApi {
  import opened Values
  import opened Models
  import Decimal
  import VectorStore
  import SearchServices
  import DetailServices

  /** The number of hits the pipeline is always asked for. */
  const TopK: nat := 100

  /** An HTTP reply: 200 with a body, or an error status with its detail
      message and, for 503, the Retry-After header. */
  datatype Reply<T> =
    | Ok200(body: T)
    | HttpError(status: int, detail: string, retryAfter: Option<string>)

  const NotReady: string := "Search service not ready. Please try again in a moment."
  const SearchFailed: string := "Search execution failed"
  const NoDatabase: string := "Recipe database not available"

  /** The globals of app/core/config.py the endpoints read and write. */
  class Config {
    var model: Option<SearchServices.Model>
    var df: Option<Table>
    var chromaCollection: Option<VectorStore.Collection>
    var searchService: SearchServices.SearchService?
    var detailService: DetailServices.DetailService?

    constructor(model: Option<SearchServices.Model>, df: Option<Table>, chromaCollection: Option<VectorStore.Collection>)
      ensures this.model == model && this.df == df && this.chromaCollection == chromaCollection
      ensures searchService == null && detailService == null
    {
      this.model := model;
      this.df := df;
      this.chromaCollection := chromaCollection;
      searchService := null;
      detailService := null;
    }
  }

  /** all_results[offset : offset + limit]. */
  function Page<T>(all: seq<T>, offset: nat, limit: nat): (page: seq<T>)
    ensures |page| == Max(0, Min(limit, |all| - offset))
    ensures forall i :: 0 <= i < |page| ==> page[i] == all[offset + i]
    ensures offset >= |all| ==> page == []
  {
    all[Min(offset, |all|)..Min(offset + limit, |all|)]
  }

  /** Two neighbouring pages together are the page that spans both. */
  lemma PagesAdjoin<T>(all: seq<T>, offset: nat, a: nat, b: nat)
    ensures Page(all, offset, a) + Page(all, offset + a, b) == Page(all, offset, a + b)
  {
    var lo, mid, hi := Min(offset, |all|), Min(offset + a, |all|), Min(offset + a + b, |all|);
    assert all[lo..mid] + all[mid..hi] == all[lo..hi];
  }

  /** Pages of one size, taken from offset 0 on, cover the full result
      list in order: the first k pages are the first k * limit hits. */
  lemma {:induction false} PagesCover<T>(all: seq<T>, limit: nat, k: nat)
    ensures Pages(all, limit, k) == all[..Min(k * limit, |all|)]
  {
    if k > 0 {
      PagesCover(all, limit, k - 1);
      PagesAdjoin(all, 0, (k - 1) * limit, limit);
      assert (k - 1) * limit + limit == k * limit;
      assert Page(all, 0, (k - 1) * limit) == all[..Min((k - 1) * limit, |all|)];
      assert Page(all, 0, k * limit) == all[..Min(k * limit, |all|)];
    }
  }

  /** The concatenation of the first k pages of one size. */
  function Pages<T>(all: seq<T>, limit: nat, k: nat): seq<T>
  {
    if k == 0 then [] else Pages(all, limit, k - 1) + Page(all, (k - 1) * limit, limit)
  }

  /** The reply of POST /search once the pipeline has run (or failed):
      422 outside the parameter bounds, 503 while a resource is missing,
      500 when the pipeline raised, else the page with the full count and
      the request's offset and limit. */
  function SearchReply(offset: int, limit: int, ready: bool, hits: Option<seq<SearchResult>>): (r: Reply<SearchResponse>)
    ensures r.Ok200? <==> 0 <= offset && 1 <= limit <= 100 && ready && hits.Some?
    ensures !(0 <= offset && 1 <= limit <= 100) ==> r.HttpError? && r.status == 422
    ensures 0 <= offset && 1 <= limit <= 100 && !ready ==> r == HttpError(503, NotReady, Some("10"))
    ensures 0 <= offset && 1 <= limit <= 100 && ready && hits.None? ==> r == HttpError(500, SearchFailed, None)
    ensures r.HttpError? && r.status == 503 ==> r.retryAfter == Some("10")
    ensures r.Ok200? ==>
      && r.body.totalCount == Some(|hits.value|)
      && r.body.offset == Some(offset) && r.body.limit == Some(limit)
      && r.body.searchResults == Page(hits.value, offset, limit)
  {
    if !(0 <= offset && 1 <= limit <= 100) then HttpError(422, "Unprocessable Entity", None)
    else if !ready then HttpError(503, NotReady, Some("10"))
    else match hits
      case None => HttpError(500, SearchFailed, None)
      case Some(all) => Ok200(SearchResponse(Page(all, offset, limit), Some(|all|), Some(offset), Some(limit)))
  }

  /** The hits of the replies to POST /search at offsets o, o + limit,
      o + 2 * limit, ..., one after the other, up to the end of the hits. */
  function ServedFrom(all: seq<SearchResult>, limit: int, offset: nat): seq<SearchResult>
    requires 1 <= limit <= 100
    decreases |all| - offset
  {
    if offset >= |all| then []
    else SearchReply(offset, limit, true, Some(all)).body.searchResults + ServedFrom(all, limit, offset + limit)
  }

  /** The total count does not depend on the page asked for, and the
      replies at offsets 0, limit, 2 * limit, ... up to the end put
      together give back every hit in order, with nothing repeated or
      skipped. */
  lemma PagingIsConsistent(all: seq<SearchResult>, limit: int)
    requires 1 <= limit <= 100
    ensures forall o1, o2 :: 0 <= o1 && 0 <= o2 ==>
      SearchReply(o1, limit, true, Some(all)).body.totalCount == SearchReply(o2, limit, true, Some(all)).body.totalCount
    ensures ServedFrom(all, limit, 0) == all
  {
    ServedRest(all, limit, 0);
  }

  lemma {:induction false} ServedRest(all: seq<SearchResult>, limit: int, offset: nat)
    requires 1 <= limit <= 100 && offset <= |all|
    ensures ServedFrom(all, limit, offset) == all[offset..]
    decreases |all| - offset
  {
    if offset < |all| {
      ServedStep(all, limit, offset);
      PageThenRest(all, offset, limit);
      if offset + limit < |all| {
        ServedRest(all, limit, offset + limit);
      }
    }
  }

  /** A page followed by everything after it is everything from the page's
      offset on. */
  lemma PageThenRest<T>(all: seq<T>, offset: nat, limit: nat)
    requires offset < |all|
    ensures offset + limit < |all| ==> Page(all, offset, limit) + all[offset + limit..] == all[offset..]
    ensures offset + limit >= |all| ==> Page(all, offset, limit) == all[offset..]
  {
    if offset + limit < |all| {
      assert all[offset..offset + limit] + all[offset + limit..] == all[offset..];
    }
  }

  /** One reply, then the replies after it. */
  lemma ServedStep(all: seq<SearchResult>, limit: int, offset: nat)
    requires 1 <= limit <= 100 && offset < |all|
    ensures ServedFrom(all, limit, offset) == Page(all, offset, limit) + ServedFrom(all, limit, offset + limit)
    ensures offset + limit >= |all| ==> ServedFrom(all, limit, offset + limit) == []
  {
  }

  /** The reply of GET /recipe/{id}: 500 without a table, 404 for an id
      not in the index, 404 when the detail service has no detail, else
      the detail. */
  function DetailReply(df: Option<Table>, id: int, detail: Option<RecipeDetail>): (r: Reply<RecipeDetail>)
    ensures df.None? <==> r == HttpError(500, NoDatabase, None)
    ensures df.Some? && !InIndex(df.value, id) ==> r.HttpError? && r.status == 404
    ensures df.Some? && InIndex(df.value, id) && detail.None? ==> r.HttpError? && r.status == 404
    ensures r.Ok200? <==> df.Some? && InIndex(df.value, id) && detail.Some?
    ensures r.Ok200? ==> r.body == detail.value
  {
    if df.None? then HttpError(500, NoDatabase, None)
    else if !InIndex(df.value, id) then HttpError(404, "Recipe " + Decimal.FromInt(id) + " not found", None)
    else match detail
      case None => HttpError(404, "Recipe " + Decimal.FromInt(id) + " details not available", None)
      case Some(d) => Ok200(d)
  }

  /** When the detail service reads the config's own table, a 200 reply
      always carries the recipe asked for, read from its first row. */
  lemma DetailReplyMatchesId(df: Option<Table>, id: int)
    ensures var r := DetailReply(df, id, DetailServices.DetailFor(df, id));
      (r.Ok200? ==> r.body.recipeId == id)
      && (df.Some? && InIndex(df.value, id) && DetailServices.DetailFor(df, id).None? ==> r.HttpError? && r.status == 404)
  {
  }

  /** The reply of a ready POST /search through a given service, and the
      vector store's globals afterwards. */
  function PipelineReply(svcModel: Option<SearchServices.Model>, svcDf: Option<Table>, cfgModel: Option<SearchServices.Model>,
                         cfgDf: Option<Table>, query: string, offset: int, limit: int, disk: VectorStore.Disk,
                         st: VectorStore.Globals, embed: SearchServices.Embedder, nn: VectorStore.NearestNeighbours)
    : (r: (Reply<SearchResponse>, VectorStore.Globals))
    ensures var (res, st1) := SearchServices.SearchOutcome(SearchServices.OrElse(svcModel, cfgModel), query, TopK, disk, st, embed, nn);
      && r.1 == st1
      && (0 <= offset && 1 <= limit <= 100 ==>
            && (res.Err? ==> r.0 == HttpError(500, SearchFailed, None))
            && (res.Ok? ==>
                  var hits := SearchServices.Hits(res.value.0, res.value.1, SearchServices.OrElse(svcDf, cfgDf));
                  && r.0.Ok200?
                  && r.0.body.searchResults == Page(hits, offset, limit)
                  && r.0.body.totalCount == Some(|hits|)))
  {
    var (res, st1) := SearchServices.SearchOutcome(SearchServices.OrElse(svcModel, cfgModel), query, TopK, disk, st, embed, nn);
    var hits := if res.Ok? then Some(SearchServices.Hits(res.value.0, res.value.1, SearchServices.OrElse(svcDf, cfgDf))) else None;
    (SearchReply(offset, limit, true, hits), st1)
  }

  /** The search pipeline is asked for the top 100 hits whatever page is
      requested: two requests for different pages of the same query leave
      the same store, and both succeed or both fail; on success their pages
      are two slices of one hit list, whose length is the total count. */
  lemma PipelineIgnoresPage(svcModel: Option<SearchServices.Model>, svcDf: Option<Table>, cfgModel: Option<SearchServices.Model>,
                            cfgDf: Option<Table>, query: string, o1: int, l1: int, o2: int, l2: int,
                            disk: VectorStore.Disk, st: VectorStore.Globals,
                            embed: SearchServices.Embedder, nn: VectorStore.NearestNeighbours)
    requires 0 <= o1 && 1 <= l1 <= 100 && 0 <= o2 && 1 <= l2 <= 100
    ensures var (r1, st1) := PipelineReply(svcModel, svcDf, cfgModel, cfgDf, query, o1, l1, disk, st, embed, nn);
      var (r2, st2) := PipelineReply(svcModel, svcDf, cfgModel, cfgDf, query, o2, l2, disk, st, embed, nn);
      && st1 == st2 && r1.Ok200? == r2.Ok200?
      && (r1.Ok200? ==> r1.body.totalCount == r2.body.totalCount)
      && (r1.Ok200? ==> exists hits: seq<SearchResult> ::
            && r1.body.searchResults == Page(hits, o1, l1)
            && r2.body.searchResults == Page(hits, o2, l2)
            && r1.body.totalCount == Some(|hits|))
  {
    var (res, _) := SearchServices.SearchOutcome(SearchServices.OrElse(svcModel, cfgModel), query, TopK, disk, st, embed, nn);
    if res.Ok? {
      var hits := SearchServices.Hits(res.value.0, res.value.1, SearchServices.OrElse(svcDf, cfgDf));
      var (r1, _) := PipelineReply(svcModel, svcDf, cfgModel, cfgDf, query, o1, l1, disk, st, embed, nn);
      var (r2, _) := PipelineReply(svcModel, svcDf, cfgModel, cfgDf, query, o2, l2, disk, st, embed, nn);
      assert r1.body.searchResults == Page(hits, o1, l1) && r2.body.searchResults == Page(hits, o2, l2);
    }
  }

  /** POST /search. */
  method Search(cfg: Config, query: string, offset: int, limit: int, store: VectorStore.Store,
                embed: SearchServices.Embedder, nn: VectorStore.NearestNeighbours)
    returns (r: Reply<SearchResponse>)
    modifies cfg`searchService, store
    ensures !(0 <= offset && 1 <= limit <= 100) || cfg.model.None? || cfg.chromaCollection.None? || cfg.df.None? ==>
      && r == SearchReply(offset, limit, false, None)
      && cfg.searchService == old(cfg.searchService)
      && store.State() == old(store.State())
    ensures 0 <= offset && 1 <= limit <= 100 && cfg.model.Some? && cfg.chromaCollection.Some? && cfg.df.Some? ==>
      && cfg.searchService != null
      && (old(cfg.searchService) != null ==> cfg.searchService == old(cfg.searchService))
      && (old(cfg.searchService) == null ==>
            fresh(cfg.searchService) && cfg.searchService.model == cfg.model && cfg.searchService.df == cfg.df)
      && (r, store.State()) == PipelineReply(cfg.searchService.model, cfg.searchService.df, cfg.model, cfg.df,
                                             query, offset, limit, store.disk, old(store.State()), embed, nn)
  {
    if !(0 <= offset && 1 <= limit <= 100) {
      return SearchReply(offset, limit, false, None);
    }
    if cfg.model.None? || cfg.chromaCollection.None? || cfg.df.None? {
      return SearchReply(offset, limit, false, None);
    }
    var svc := cfg.searchService;
    if svc == null {
      svc := new SearchServices.SearchService(cfg.model, None, cfg.model, cfg.df);
      cfg.searchService := svc;
    }
    r := RunPipeline(svc, cfg.model, cfg.df, query, offset, limit, store, embed, nn);
  }

  /** search_results(query, top_k=100) and the page of its hits. */
  method RunPipeline(svc: SearchServices.SearchService, cfgModel: Option<SearchServices.Model>, cfgDf: Option<Table>,
                     query: string, offset: int, limit: int, store: VectorStore.Store,
                     embed: SearchServices.Embedder, nn: VectorStore.NearestNeighbours)
    returns (r: Reply<SearchResponse>)
    modifies store
    ensures (r, store.State()) == PipelineReply(svc.model, svc.df, cfgModel, cfgDf, query, offset, limit,
                                                store.disk, old(store.State()), embed, nn)
  {
    var all := svc.SearchResults(query, TopK, cfgModel, cfgDf, store, embed, nn);
    if all.Err? {
      return SearchReply(offset, limit, true, None);
    }
    r := SearchReply(offset, limit, true, Some(all.value));
  }

  /** GET /recipe/{recipe_id}. */
  method GetRecipeDetail(cfg: Config, id: int) returns (r: Reply<RecipeDetail>)
    modifies cfg`detailService
    ensures cfg.df.None? || !InIndex(cfg.df.value, id) ==>
      r == DetailReply(cfg.df, id, None) && cfg.detailService == old(cfg.detailService)
    ensures cfg.df.Some? && InIndex(cfg.df.value, id) ==>
      && cfg.detailService != null
      && (old(cfg.detailService) != null ==> cfg.detailService == old(cfg.detailService))
      && (old(cfg.detailService) == null ==> fresh(cfg.detailService) && cfg.detailService.df == cfg.df)
      && r == DetailReply(cfg.df, id, DetailServices.DetailFor(cfg.detailService.df, id))
  {
    if cfg.df.None? {
      return DetailReply(cfg.df, id, None);
    }
    if !InIndex(cfg.df.value, id) {
      return DetailReply(cfg.df, id, None);
    }
    var svc := cfg.detailService;
    if svc == null {
      svc := new DetailServices.DetailService(cfg.df, cfg.df);
      cfg.detailService := svc;
    }
    var details := svc.GetRecipeDetails(id);
    r := DetailReply(cfg.df, id, details);
  }
}
