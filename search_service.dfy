/** The search service (app/services/search_service.py): cleans and embeds
    the query, asks the vector store for the nearest recipes, and turns
    their ids into recipe cards read from the recipe table. */
module SearchServices {
  import opened Values
  import opened Text
  import opened Models
  import DataPreprocessor
  import VectorStore

  /** The sentence-embedding model. */
  datatype Model = Model(name: string)

  /** vectorize_text(text, model, normalize=True): None when it raises
      (an unsupported model, or model.encode failing). */
  type Embedder = (string, Model) -> Option<VectorStore.Vector>

  datatype SearchError =
    | ModelNotInitialized
    | EmbeddingFailed
    | StoreFailed(cause: VectorStore.StoreError)

  /** The table columns a recipe card is read from. */
  const CardColumns: seq<string> := [
    "name", "description", "recipe_category", "keywords",
    "n_ingredients", "total_time_minutes", "calories", "aggregated_rating"]

  /** `df is not None and not df.empty`. */
  predicate Usable(t: Option<Table>)
  {
    t.Some? && !IsEmpty(t.value)
  }

  /** `x if x is not None else fallback`. */
  function OrElse<T>(x: Option<T>, fallback: Option<T>): (r: Option<T>)
    ensures x.Some? ==> r == x
    ensures x.None? ==> r == fallback
  {
    if x.Some? then x else fallback
  }

  /** df.loc[rid, cols] raises KeyError unless every card column exists. */
  predicate HasCardColumns(t: Table)
  {
    forall col :: col in CardColumns ==> col in t.columns
  }

  /** row.to_dict() for the card columns, with "recipe_id" set to rid. */
  function CardDict(row: Row, rid: int): seq<Member>
  {
    Set(RowDict(row, CardColumns), "recipe_id", JInt(rid))
  }

  /** The card of one id: a minimal card when the id is not in the index,
      when a card column is missing, or when the row does not validate;
      otherwise the card built from the first row with that id. */
  function CardFor(t: Table, rid: int): (c: RecipeCard)
    ensures c.recipeId == rid
    ensures !InIndex(t, rid) || !HasCardColumns(t) ==> c == MinimalCard(rid)
  {
    match FirstRow(t.rows, rid)
    case None => MinimalCard(rid)
    case Some(j) =>
      if !HasCardColumns(t) then MinimalCard(rid)
      else
        var d := CardDict(t.rows[j], rid);
        match CardFromDict(d)
        case Some(card) => card
        case None => MinimalCard(rid)
  }

  /** The card cells of a row have the types a RecipeCard demands. */
  predicate CardCellsValid(row: Row)
  {
    && OptStr(Cell(row, "name")).Valid?
    && OptStr(Cell(row, "description")).Valid?
    && OptStr(Cell(row, "recipe_category")).Valid?
    && OptStrList(Cell(row, "keywords")).Valid?
    && OptInt(Cell(row, "n_ingredients")).Valid?
    && OptInt(Cell(row, "total_time_minutes")).Valid?
    && OptFloat(Cell(row, "calories")).Valid?
    && OptFloat(Cell(row, "aggregated_rating")).Valid?
  }

  /** The card that shows the cells of a row, field by field. */
  function CardFromRow(row: Row, rid: int): RecipeCard
    requires CardCellsValid(row)
  {
    RecipeCard(rid,
      OptStr(Cell(row, "name")).value,
      OptStr(Cell(row, "description")).value,
      OptStr(Cell(row, "recipe_category")).value,
      OptStrList(Cell(row, "keywords")).value,
      OptInt(Cell(row, "n_ingredients")).value,
      OptInt(Cell(row, "total_time_minutes")).value,
      OptFloat(Cell(row, "calories")).value,
      OptFloat(Cell(row, "aggregated_rating")).value)
  }

  lemma CardDictFields(row: Row, rid: int)
    ensures Lookup(CardDict(row, rid), "recipe_id") == Some(JInt(rid))
    ensures forall k :: k in CardColumns ==> Lookup(CardDict(row, rid), k) == Some(Cell(row, k))
  {
    forall k | k in CardColumns
      ensures Lookup(CardDict(row, rid), k) == Some(Cell(row, k))
    {
      LookupRowDict(row, CardColumns, k);
    }
  }

  /** For an id in the index of a table with every card column, the card
      shows the FIRST row with that id when its cells are well typed, and
      is the minimal card otherwise. */
  lemma CardShowsFirstRow(t: Table, rid: int)
    requires InIndex(t, rid) && HasCardColumns(t)
    ensures var row := t.rows[FirstRow(t.rows, rid).value];
      CardFor(t, rid) == if CardCellsValid(row) then CardFromRow(row, rid) else MinimalCard(rid)
  {
    var row := t.rows[FirstRow(t.rows, rid).value];
    CardFromCells(row, rid);
  }

  lemma CardFromCells(row: Row, rid: int)
    ensures CardFromDict(CardDict(row, rid)) == if CardCellsValid(row) then Some(CardFromRow(row, rid)) else None
  {
    CardDictFields(row, rid);
    var d := CardDict(row, rid);
    var ks := CardColumns;
    assert ks[0] in ks && ks[1] in ks && ks[2] in ks && ks[3] in ks;
    assert ks[4] in ks && ks[5] in ks && ks[6] in ks && ks[7] in ks;
    CardFromLookups(d, row, rid);
  }

  lemma CardFromLookups(d: seq<Member>, row: Row, rid: int)
    requires Lookup(d, "recipe_id") == Some(JInt(rid))
    requires Lookup(d, "name") == Some(Cell(row, "name"))
    requires Lookup(d, "description") == Some(Cell(row, "description"))
    requires Lookup(d, "recipe_category") == Some(Cell(row, "recipe_category"))
    requires Lookup(d, "keywords") == Some(Cell(row, "keywords"))
    requires Lookup(d, "n_ingredients") == Some(Cell(row, "n_ingredients"))
    requires Lookup(d, "total_time_minutes") == Some(Cell(row, "total_time_minutes"))
    requires Lookup(d, "calories") == Some(Cell(row, "calories"))
    requires Lookup(d, "aggregated_rating") == Some(Cell(row, "aggregated_rating"))
    ensures CardFromDict(d) == if CardCellsValid(row) then Some(CardFromRow(row, rid)) else None
  {
    assert IdField(d) == Valid(rid);
    FieldFromCell(d, row, "name");
    FieldFromCell(d, row, "description");
    FieldFromCell(d, row, "recipe_category");
    FieldFromCell(d, row, "keywords");
    FieldFromCell(d, row, "n_ingredients");
    FieldFromCell(d, row, "total_time_minutes");
    FieldFromCell(d, row, "calories");
    FieldFromCell(d, row, "aggregated_rating");
  }

  lemma FieldFromCell(d: seq<Member>, row: Row, k: string)
    requires Lookup(d, k) == Some(Cell(row, k))
    ensures StrField(d, k) == OptStr(Cell(row, k)) && ListField(d, k) == OptStrList(Cell(row, k))
    ensures IntField(d, k) == OptInt(Cell(row, k)) && FloatField(d, k) == OptFloat(Cell(row, k))
    ensures RequiredListField(d, k) == StrList(Cell(row, k))
  {
  }

  /** get_recipe_cards() as a value: [] without a usable table, else one
      card per id, in order. */
  function CardsFor(t: Option<Table>, ids: seq<int>): (r: seq<RecipeCard>)
    ensures !Usable(t) ==> r == []
    ensures Usable(t) ==> |r| == |ids| && forall i :: 0 <= i < |ids| ==> r[i].recipeId == ids[i]
  {
    if !Usable(t) then [] else seq(|ids|, i requires 0 <= i < |ids| => CardFor(t.value, ids[i]))
  }

  /** The last card of cs with recipe id rid: what the dict comprehension
      {card.recipe_id: card for card in cards} keeps for rid. */
  function LastCard(cs: seq<RecipeCard>, rid: int): (r: Option<RecipeCard>)
    ensures r.Some? ==> r.value in cs && r.value.recipeId == rid
    ensures r.None? <==> forall c :: c in cs ==> c.recipeId != rid
  {
    if cs == [] then None
    else if cs[|cs| - 1].recipeId == rid then Some(cs[|cs| - 1])
    else
      assert forall c :: c in cs ==> c in cs[..|cs| - 1] || c == cs[|cs| - 1];
      LastCard(cs[..|cs| - 1], rid)
  }

  /** Among the cards get_recipe_cards() builds, the one the card map keeps
      for an id is the card of that id. */
  lemma CardsMatchIds(t: Option<Table>, ids: seq<int>, i: nat)
    requires Usable(t) && i < |ids|
    ensures LastCard(CardsFor(t, ids), ids[i]) == Some(CardFor(t.value, ids[i]))
  {
    var cards := CardsFor(t, ids);
    assert cards[i].recipeId == ids[i];
    assert cards[i] in cards;
    var c := LastCard(cards, ids[i]).value;
    var k :| 0 <= k < |cards| && cards[k] == c;
    assert ids[k] == ids[i];
  }

  /** The hit list for ids and scores: the pairs of zip(ids, distances),
      each with the card of its id when the table is usable. */
  function Hits(ids: seq<int>, distances: seq<Float>, t: Option<Table>): (r: seq<SearchResult>)
    ensures |r| == Min(|ids|, |distances|)
  {
    seq(Min(|ids|, |distances|), i requires 0 <= i < Min(|ids|, |distances|) =>
      SearchResult(ids[i], distances[i], if Usable(t) then Some(CardFor(t.value, ids[i])) else None))
  }

  /** Pairing ids and scores with the cards of get_recipe_cards() gives
      every id the card of its own row. */
  lemma PairedHits(ids: seq<int>, distances: seq<Float>, t: Option<Table>, hits: seq<SearchResult>)
    requires |hits| == Min(|ids|, |distances|)
    requires forall i :: 0 <= i < |hits| ==>
      hits[i] == SearchResult(ids[i], distances[i], LastCard(CardsFor(t, ids), ids[i]))
    ensures hits == Hits(ids, distances, t)
  {
    forall i | 0 <= i < |hits|
      ensures hits[i] == Hits(ids, distances, t)[i]
    {
      if Usable(t) {
        CardsMatchIds(t, ids, i);
      }
    }
  }

  /** search(): the outcome and the vector store's globals afterwards. A
      blank query touches nothing; so do a missing model and a failed
      embedding. Otherwise the store changes only by loading its
      collection, and answers with the ids and distances it found. */
  function SearchOutcome(model: Option<Model>, query: string, topK: nat, disk: VectorStore.Disk,
                         st: VectorStore.Globals, embed: Embedder, nn: VectorStore.NearestNeighbours)
    : (r: (Result<(seq<int>, seq<Float>), SearchError>, VectorStore.Globals))
    ensures Strip(query) == [] ==> r == (Ok(([], [])), st)
    ensures Strip(query) != [] && model.None? ==> r == (Err(ModelNotInitialized), st)
    ensures Strip(query) != [] && model.Some? && embed(DataPreprocessor.CleanText(Some(query)), model.value).None? ==>
      r == (Err(EmbeddingFailed), st)
    ensures Strip(query) != [] && model.Some? && embed(DataPreprocessor.CleanText(Some(query)), model.value).Some? ==>
      var (res, st1) := VectorStore.SearchOutcome(disk, st, embed(DataPreprocessor.CleanText(Some(query)), model.value).value, topK, nn);
      r == (if res.Err? then Err(StoreFailed(res.error)) else Ok(res.value), st1)
    ensures Strip(query) != [] ==> r == SearchCleaned(model, DataPreprocessor.CleanText(Some(query)), topK, disk, st, embed, nn)
    ensures r.1 == st || r.1 == VectorStore.LoadOutcome(disk, st).1
    ensures r.0.Ok? && Strip(query) != [] ==>
      exists v :: VectorStore.SearchOutcome(disk, st, v, topK, nn).0 == Ok(r.0.value)
  {
    if Strip(query) == [] then (Ok(([], [])), st)
    else SearchCleaned(model, DataPreprocessor.CleanText(Some(query)), topK, disk, st, embed, nn)
  }

  /** The rest of search() once the query is known not to be blank: it
      sees the query only through its cleaned text. */
  function SearchCleaned(model: Option<Model>, text: string, topK: nat, disk: VectorStore.Disk,
                         st: VectorStore.Globals, embed: Embedder, nn: VectorStore.NearestNeighbours)
    : (r: (Result<(seq<int>, seq<Float>), SearchError>, VectorStore.Globals))
    ensures model.None? ==> r == (Err(ModelNotInitialized), st)
    ensures model.Some? && embed(text, model.value).None? ==> r == (Err(EmbeddingFailed), st)
    ensures model.Some? && embed(text, model.value).Some? ==>
      var (res, st1) := VectorStore.SearchOutcome(disk, st, embed(text, model.value).value, topK, nn);
      r == (if res.Err? then Err(StoreFailed(res.error)) else Ok(res.value), st1)
    ensures r.1 == st || r.1 == VectorStore.LoadOutcome(disk, st).1
    ensures r.0.Ok? ==> exists v :: VectorStore.SearchOutcome(disk, st, v, topK, nn).0 == Ok(r.0.value)
  {
    if model.None? then (Err(ModelNotInitialized), st)
    else
      match embed(text, model.value)
      case None => (Err(EmbeddingFailed), st)
      case Some(vector) =>
        var (res, st1) := VectorStore.SearchOutcome(disk, st, vector, topK, nn);
        match res
        case Err(e) => (Err(StoreFailed(e)), st1)
        case Ok(found) =>
          assert VectorStore.SearchOutcome(disk, st, vector, topK, nn).0 == Ok(found);
          (Ok(found), st1)
  }

  /** Two queries that clean to the same text ask the store the same
      question. */
  lemma SameCleanSameSearch(model: Option<Model>, q1: string, q2: string, topK: nat, disk: VectorStore.Disk,
                            st: VectorStore.Globals, embed: Embedder, nn: VectorStore.NearestNeighbours)
    requires Strip(q1) != [] && Strip(q2) != []
    requires DataPreprocessor.CleanText(Some(q1)) == DataPreprocessor.CleanText(Some(q2))
    ensures SearchOutcome(model, q1, topK, disk, st, embed, nn) == SearchOutcome(model, q2, topK, disk, st, embed, nn)
  {
    var text := DataPreprocessor.CleanText(Some(q1));
    assert SearchOutcome(model, q1, topK, disk, st, embed, nn) == SearchCleaned(model, text, topK, disk, st, embed, nn);
  }

  class SearchService {
    var model: Option<Model>
    var df: Option<Table>

    /** SearchService(model, df): each falls back to the config's value. */
    constructor(model: Option<Model>, df: Option<Table>, configModel: Option<Model>, configDf: Option<Table>)
      ensures this.model == OrElse(model, configModel) && this.df == OrElse(df, configDf)
    {
      this.model := OrElse(model, configModel);
      this.df := OrElse(df, configDf);
    }

    /** search(query, top_k). */
    method Search(query: string, topK: nat, configModel: Option<Model>, store: VectorStore.Store,
                  embed: Embedder, nn: VectorStore.NearestNeighbours)
      returns (r: Result<(seq<int>, seq<Float>), SearchError>)
      modifies store
      ensures (r, store.State()) ==
        SearchOutcome(OrElse(model, configModel), query, topK, store.disk, old(store.State()), embed, nn)
    {
      ghost var st0 := store.State();
      if Strip(query) == [] {
        return Ok(([], []));
      }
      var m := OrElse(model, configModel);
      if m.None? {
        return Err(ModelNotInitialized);
      }
      var cleaned := DataPreprocessor.CleanText(Some(query));
      assert SearchOutcome(m, query, topK, store.disk, st0, embed, nn)
          == SearchCleaned(m, cleaned, topK, store.disk, st0, embed, nn);
      var vector := embed(cleaned, m.value);
      if vector.None? {
        return Err(EmbeddingFailed);
      }
      var res := store.SearchCollection(vector.value, topK, nn);
      if res.Err? {
        return Err(StoreFailed(res.error));
      }
      r := Ok(res.value);
    }

    /** get_recipe_cards(ids): one card per id, in order, with the
        id the card was asked for; [] without a usable table. */
    method GetRecipeCards(ids: seq<int>, configDf: Option<Table>) returns (cards: seq<RecipeCard>)
      ensures cards == CardsFor(OrElse(df, configDf), ids)
      ensures Usable(OrElse(df, configDf)) ==>
        |cards| == |ids| && forall i :: 0 <= i < |ids| ==> cards[i].recipeId == ids[i]
      ensures !Usable(OrElse(df, configDf)) ==> cards == []
    {
      var t := OrElse(df, configDf);
      if t.None? || IsEmpty(t.value) {
        return [];
      }
      cards := [];
      for i := 0 to |ids|
        invariant cards == seq(i, k requires 0 <= k < i => CardFor(t.value, ids[k]))
      {
        var card := CardFor(t.value, ids[i]);
        cards := cards + [card];
      }
      assert cards == CardsFor(t, ids);
    }

    /** search_results(query, top_k). */
    method SearchResults(query: string, topK: nat, configModel: Option<Model>, configDf: Option<Table>,
                         store: VectorStore.Store, embed: Embedder, nn: VectorStore.NearestNeighbours)
      returns (r: Result<seq<SearchResult>, SearchError>)
      modifies store
      ensures var (res, st) :=
        SearchOutcome(OrElse(model, configModel), query, topK, store.disk, old(store.State()), embed, nn);
        && store.State() == st
        && (res.Err? ==> r == Err(res.error))
        && (res.Ok? ==> r == Ok(Hits(res.value.0, res.value.1, OrElse(df, configDf))))
    {
      var found := Search(query, topK, configModel, store, embed, nn);
      if found.Err? {
        return Err(found.error);
      }
      var (ids, distances) := found.value;
      if ids == [] {
        return Ok([]);
      }
      var cards := GetRecipeCards(ids, configDf);
      var hits := Pair(ids, distances, cards);
      PairedHits(ids, distances, OrElse(df, configDf), hits);
      r := Ok(hits);
    }
  }

  /** The card map and the zip loop of search_results(): each id is paired
      with its score, up to the shorter list, and with the last card built
      for it, if any. */
  method Pair(ids: seq<int>, distances: seq<Float>, cards: seq<RecipeCard>) returns (results: seq<SearchResult>)
    ensures |results| == Min(|ids|, |distances|)
    ensures forall i :: 0 <= i < |results| ==>
      results[i] == SearchResult(ids[i], distances[i], LastCard(cards, ids[i]))
  {
    var cardMap: map<int, RecipeCard> := map[];
    for j := 0 to |cards|
      invariant forall rid :: rid in cardMap <==> LastCard(cards[..j], rid).Some?
      invariant forall rid :: rid in cardMap ==> cardMap[rid] == LastCard(cards[..j], rid).value
    {
      assert cards[..j + 1][..j] == cards[..j];
      cardMap := cardMap[cards[j].recipeId := cards[j]];
    }
    assert cards[..|cards|] == cards;
    results := [];
    var n := Min(|ids|, |distances|);
    for i := 0 to n
      invariant |results| == i
      invariant forall k :: 0 <= k < i ==> results[k] == SearchResult(ids[k], distances[k], LastCard(cards, ids[k]))
    {
      var card := if ids[i] in cardMap then Some(cardMap[ids[i]]) else None;
      results := results + [SearchResult(ids[i], distances[i], card)];
    }
  }
}
