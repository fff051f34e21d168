/** The records the API returns (app/models/recipe_card.py,
    app/models/search_response.py, app/models/recipe_detail.py), the recipe
    table they are built from, and record validation: a field that is absent
    takes its default, a present field must be null or of the field's type. */
module Models {
  import opened Values
  import Decimal

  /** RecipeCard: the summary shown in a list of results. */
  datatype RecipeCard = RecipeCard(
    recipeId: int,
    name: Option<string>,
    description: Option<string>,
    recipeCategory: Option<string>,
    keywords: Option<seq<string>>,
    nIngredients: Option<int>,
    totalTimeMinutes: Option<int>,
    calories: Option<Float>,
    aggregatedRating: Option<Float>)

  /** RecipeCard(recipe_id=id): every optional field at its default; the
      keyword list defaults to [] (a default factory), not to None. */
  function MinimalCard(id: int): (c: RecipeCard)
    ensures c.recipeId == id && c.keywords == Some([])
    ensures c.name.None? && c.description.None? && c.recipeCategory.None?
    ensures c.nIngredients.None? && c.totalTimeMinutes.None?
    ensures c.calories.None? && c.aggregatedRating.None?
  {
    RecipeCard(id, None, None, None, Some([]), None, None, None, None)
  }

  /** SearchResult: one hit of a search. */
  datatype SearchResult = SearchResult(recipeId: int, similarityScore: Float, card: Option<RecipeCard>)

  /** SearchResponse: one page of hits. */
  datatype SearchResponse = SearchResponse(
    searchResults: seq<SearchResult>,
    totalCount: Option<int>,
    offset: Option<int>,
    limit: Option<int>)

  /** RecipeDetail: everything about one recipe. */
  datatype RecipeDetail = RecipeDetail(
    recipeId: int,
    name: Option<string>,
    description: Option<string>,
    recipeCategory: Option<string>,
    ingredients: seq<string>,
    recipeInstructions: Option<seq<string>>,
    keywords: Option<seq<string>>,
    nIngredients: Option<int>,
    totalTimeMinutes: Option<int>,
    calories: Option<Float>,
    aggregatedRating: Option<Float>,
    carbohydrateContent: Option<Float>,
    fatContent: Option<Float>,
    proteinContent: Option<Float>,
    sugarContent: Option<Float>,
    carbohydrateContentPerc: Option<Float>,
    fatContentPerc: Option<Float>,
    proteinContentPerc: Option<Float>,
    sugarContentPerc: Option<Float>)

  /** One row of the recipe table: its index value (the recipe id) and its
      cells; a cell that is not there reads as null. */
  datatype Row = Row(id: int, cells: map<string, Json>)

  /** The recipe table, indexed by recipe id. The index may repeat an id. */
  datatype Table = Table(columns: seq<string>, rows: seq<Row>)

  /** DataFrame.empty: no rows or no columns. */
  predicate IsEmpty(t: Table)
  {
    |t.rows| == 0 || |t.columns| == 0
  }

  /** The position of the first row whose index value is id. */
  function FirstRow(rows: seq<Row>, id: int): (r: Option<nat>)
    ensures r.Some? ==> r.value < |rows| && rows[r.value].id == id
    ensures r.Some? ==> forall j :: 0 <= j < r.value ==> rows[j].id != id
    ensures r.None? ==> forall j :: 0 <= j < |rows| ==> rows[j].id != id
  {
    if rows == [] then None
    else if rows[0].id == id then Some(0)
    else match FirstRow(rows[1..], id)
      case None => None
      case Some(k) => Some(k + 1)
  }

  /** `id in df.index`. */
  predicate InIndex(t: Table, id: int)
  {
    FirstRow(t.rows, id).Some?
  }

  function Cell(row: Row, col: string): Json
  {
    if col in row.cells then row.cells[col] else JNull
  }

  /** row.to_dict() restricted to the given columns, in their order. */
  function RowDict(row: Row, cols: seq<string>): (d: seq<Member>)
    ensures |d| == |cols| && forall i :: 0 <= i < |cols| ==> d[i] == Member(cols[i], Cell(row, cols[i]))
  {
    seq(|cols|, i requires 0 <= i < |cols| => Member(cols[i], Cell(row, cols[i])))
  }

  /** A field of the row dict holds that column's cell; other keys are
      absent. */
  lemma {:induction false} LookupRowDict(row: Row, cols: seq<string>, k: string)
    ensures Lookup(RowDict(row, cols), k) == if k in cols then Some(Cell(row, k)) else None
  {
    if cols != [] {
      LookupRowDict(row, cols[1..], k);
      assert RowDict(row, cols) == [Member(cols[0], Cell(row, cols[0]))] + RowDict(row, cols[1..]);
      LookupCons(Member(cols[0], Cell(row, cols[0])), RowDict(row, cols[1..]));
      assert k in cols <==> k == cols[0] || k in cols[1..];
    }
  }

  /** The outcome of validating one field. */
  datatype Checked<T> = Valid(value: T) | Invalid

  /** Optional[str]. */
  function OptStr(v: Json): Checked<Option<string>>
  {
    match v
    case JNull => Valid(None)
    case JStr(s) => Valid(Some(s))
    case _ => Invalid
  }

  /** Optional[int]. */
  function OptInt(v: Json): Checked<Option<int>>
  {
    match v
    case JNull => Valid(None)
    case JInt(i) => Valid(Some(i))
    case _ => Invalid
  }

  /** Optional[float]: an int is accepted and becomes a float. */
  function OptFloat(v: Json): Checked<Option<Float>>
  {
    match v
    case JNull => Valid(None)
    case JFloat(f) => Valid(Some(f))
    case JInt(i) => Valid(Some(Float(Decimal.FromInt(i) + ".0")))
    case _ => Invalid
  }

  /** List[str]. */
  function StrList(v: Json): (r: Checked<seq<string>>)
    ensures r.Valid? ==> v.JArr? && |r.value| == |v.items|
  {
    match v
    case JArr(xs) =>
      if forall i :: 0 <= i < |xs| ==> xs[i].JStr? then Valid(seq(|xs|, i requires 0 <= i < |xs| => xs[i].s))
      else Invalid
    case _ => Invalid
  }

  /** Optional[List[str]]. */
  function OptStrList(v: Json): Checked<Option<seq<string>>>
  {
    if v.JNull? then Valid(None)
    else match StrList(v)
      case Valid(xs) => Valid(Some(xs))
      case Invalid => Invalid
  }

  /** The field k of a record built from dict d: the default when k is
      absent, the validated value otherwise. */
  function StrField(d: seq<Member>, k: string): Checked<Option<string>>
  {
    match Lookup(d, k)
    case None => Valid(None)
    case Some(v) => OptStr(v)
  }

  function IntField(d: seq<Member>, k: string): Checked<Option<int>>
  {
    match Lookup(d, k)
    case None => Valid(None)
    case Some(v) => OptInt(v)
  }

  function FloatField(d: seq<Member>, k: string): Checked<Option<Float>>
  {
    match Lookup(d, k)
    case None => Valid(None)
    case Some(v) => OptFloat(v)
  }

  /** An Optional[List[str]] field whose default is []. */
  function ListField(d: seq<Member>, k: string): Checked<Option<seq<string>>>
  {
    match Lookup(d, k)
    case None => Valid(Some([]))
    case Some(v) => OptStrList(v)
  }

  /** A List[str] field whose default is []; null is refused. */
  function RequiredListField(d: seq<Member>, k: string): Checked<seq<string>>
  {
    match Lookup(d, k)
    case None => Valid([])
    case Some(v) => StrList(v)
  }

  /** The required recipe_id: int field. */
  function IdField(d: seq<Member>): Checked<int>
  {
    match Lookup(d, "recipe_id")
    case Some(JInt(i)) => Valid(i)
    case _ => Invalid
  }

  /** RecipeCard(**d): the card, or None when validation fails. */
  function CardFromDict(d: seq<Member>): (r: Option<RecipeCard>)
    ensures r.Some? ==> Lookup(d, "recipe_id") == Some(JInt(r.value.recipeId))
  {
    var id := IdField(d);
    var name := StrField(d, "name");
    var description := StrField(d, "description");
    var category := StrField(d, "recipe_category");
    var keywords := ListField(d, "keywords");
    var nIngredients := IntField(d, "n_ingredients");
    var totalTime := IntField(d, "total_time_minutes");
    var calories := FloatField(d, "calories");
    var rating := FloatField(d, "aggregated_rating");
    if id.Valid? && name.Valid? && description.Valid? && category.Valid? && keywords.Valid?
      && nIngredients.Valid? && totalTime.Valid? && calories.Valid? && rating.Valid?
    then Some(RecipeCard(id.value, name.value, description.value, category.value, keywords.value,
                         nIngredients.value, totalTime.value, calories.value, rating.value))
    else None
  }

  /** RecipeDetail(**d): the detail, or None when validation fails. */
  function DetailFromDict(d: seq<Member>): (r: Option<RecipeDetail>)
    ensures r.Some? ==> Lookup(d, "recipe_id") == Some(JInt(r.value.recipeId))
  {
    var id := IdField(d);
    var name := StrField(d, "name");
    var description := StrField(d, "description");
    var category := StrField(d, "recipe_category");
    var ingredients := RequiredListField(d, "ingredients");
    var instructions := ListField(d, "recipe_instructions");
    var keywords := ListField(d, "keywords");
    var nIngredients := IntField(d, "n_ingredients");
    var totalTime := IntField(d, "total_time_minutes");
    var calories := FloatField(d, "calories");
    var rating := FloatField(d, "aggregated_rating");
    var carb := FloatField(d, "carbohydrate_content");
    var fat := FloatField(d, "fat_content");
    var protein := FloatField(d, "protein_content");
    var sugar := FloatField(d, "sugar_content");
    var carbPerc := FloatField(d, "carbohydrate_content_perc");
    var fatPerc := FloatField(d, "fat_content_perc");
    var proteinPerc := FloatField(d, "protein_content_perc");
    var sugarPerc := FloatField(d, "sugar_content_perc");
    if id.Valid? && name.Valid? && description.Valid? && category.Valid? && ingredients.Valid?
      && instructions.Valid? && keywords.Valid? && nIngredients.Valid? && totalTime.Valid?
      && calories.Valid? && rating.Valid? && carb.Valid? && fat.Valid? && protein.Valid?
      && sugar.Valid? && carbPerc.Valid? && fatPerc.Valid? && proteinPerc.Valid? && sugarPerc.Valid?
    then Some(RecipeDetail(id.value, name.value, description.value, category.value, ingredients.value,
                           instructions.value, keywords.value, nIngredients.value, totalTime.value,
                           calories.value, rating.value, carb.value, fat.value, protein.value,
                           sugar.value, carbPerc.value, fatPerc.value, proteinPerc.value, sugarPerc.value))
    else None
  }
}
