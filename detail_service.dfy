/** The detail service (app/services/detail_service.py): reads the first
    row of a recipe from the recipe table, fills in defaults, splits the
    instructions text into lines and validates the result as a
    RecipeDetail. */
module DetailServices {
  import opened Values
  import opened Text
  import opened Models

  /** [s.strip() for s in text.splitlines() if s.strip()]. */
  function Lines(text: string): (r: seq<string>)
    ensures forall l :: l in r ==> l != [] && Trimmed(l)
    ensures forall l, c :: l in r && c in l ==> c !in LineBreaks && c in text
  {
    TrimmedPiecesChars(text, LineBreaks);
    TrimmedNonBlank(SplitOn(text, LineBreaks))
  }

  /** The lines are those of the text: the text's pieces between line
      breaks rejoin to the text, and when none of them is blank there is
      one line per piece, each the piece stripped, in order. */
  lemma LinesOfText(text: string)
    ensures var pieces := SplitOn(text, LineBreaks);
      && Rejoin(pieces, Separators(text, LineBreaks)) == text
      && ((forall p :: p in pieces ==> Strip(p) != []) ==>
            |Lines(text)| == |pieces| && forall i :: 0 <= i < |pieces| ==> Lines(text)[i] == Strip(pieces[i]))
  {
    var pieces := SplitOn(text, LineBreaks);
    SplitOnRejoin(text, LineBreaks);
    if forall p :: p in pieces ==> Strip(p) != [] {
      TrimmedNonBlankCount(pieces);
    }
  }

  /** A list of strings as a Python value. */
  function StrArr(ls: seq<string>): (r: Json)
    ensures StrList(r) == Valid(ls)
  {
    var r := JArr(seq(|ls|, i requires 0 <= i < |ls| => JStr(ls[i])));
    assert seq(|ls|, i requires 0 <= i < |ls| => r.items[i].s) == ls;
    r
  }

  /** The row dict of get_recipe_details: every column of the row, then
      recipe_id set to the id asked for, keywords and ingredients defaulted
      to [] when the row has no such column, and the instructions replaced
      by [] when missing or null and by their lines when a string. */
  function DetailDict(row: Row, cols: seq<string>, id: int): (d: seq<Member>)
    ensures Lookup(d, "recipe_id") == Some(JInt(id))
  {
    var d1 := Set(RowDict(row, cols), "recipe_id", JInt(id));
    assert |"recipe_id"| == 9;
    WithDefaultsKeeps(d1, "recipe_id");
    FixInstructionsKeeps(WithDefaults(d1), "recipe_id");
    FixInstructions(WithDefaults(Set(RowDict(row, cols), "recipe_id", JInt(id))))
  }

  /** keywords and ingredients default to []. */
  function WithDefaults(d: seq<Member>): seq<Member>
  {
    SetDefault(SetDefault(d, "keywords", JArr([])), "ingredients", JArr([]))
  }

  /** A null instructions value becomes [], a string its lines. */
  function FixInstructions(d: seq<Member>): seq<Member>
  {
    var ri := Get(d, "recipe_instructions");
    if ri.JNull? then Set(d, "recipe_instructions", JArr([]))
    else if ri.JStr? then Set(d, "recipe_instructions", StrArr(Lines(ri.s)))
    else d
  }

  lemma WithDefaultsKeeps(d: seq<Member>, k: string)
    requires k != "keywords" && k != "ingredients"
    ensures Lookup(WithDefaults(d), k) == Lookup(d, k)
  {
  }

  lemma FixInstructionsKeeps(d: seq<Member>, k: string)
    requires k != "recipe_instructions"
    ensures Lookup(FixInstructions(d), k) == Lookup(d, k)
  {
  }

  lemma FixInstructionsValue(d: seq<Member>)
    ensures var ri := Get(d, "recipe_instructions");
      Lookup(FixInstructions(d), "recipe_instructions") ==
        Some(if ri.JNull? then JArr([]) else if ri.JStr? then StrArr(Lines(ri.s)) else ri)
  {
  }

  /** get_recipe_details(id) for the service's table. */
  function DetailFor(t: Option<Table>, id: int): (r: Option<RecipeDetail>)
    ensures r.Some? ==> r.value.recipeId == id
    ensures t.None? || !InIndex(t.value, id) ==> r.None?
  {
    if t.None? then None
    else match FirstRow(t.value.rows, id)
      case None => None
      case Some(j) =>
        DetailFromDict(DetailDict(t.value.rows[j], t.value.columns, id))
  }

  /** The first row with the id, when the id is in the index. */
  function FirstRowOf(t: Table, id: int): Row
    requires InIndex(t, id)
  {
    t.rows[FirstRow(t.rows, id).value]
  }

  /** Nothing but recipe_id and the instructions is rewritten: every other
      column of the first row reaches validation as it is in the table. */
  lemma DetailDictKeepsCells(row: Row, cols: seq<string>, id: int, k: string)
    requires k in cols && k != "recipe_id" && k != "recipe_instructions"
    ensures Lookup(DetailDict(row, cols, id), k) == Some(Cell(row, k))
  {
    LookupRowDict(row, cols, k);
    FixInstructionsKeeps(WithDefaults(Set(RowDict(row, cols), "recipe_id", JInt(id))), k);
  }

  /** keywords and ingredients default to [] only when the row has no such
      column. */
  lemma DetailDictDefaults(row: Row, cols: seq<string>, id: int, k: string)
    requires k == "keywords" || k == "ingredients"
    requires k !in cols
    ensures Lookup(DetailDict(row, cols, id), k) == Some(JArr([]))
  {
    LookupRowDict(row, cols, k);
    FixInstructionsKeeps(WithDefaults(Set(RowDict(row, cols), "recipe_id", JInt(id))), k);
  }

  /** The instructions the validator sees: [] for a missing or null value,
      the non-blank stripped lines of a string, anything else unchanged. */
  lemma DetailDictInstructions(row: Row, cols: seq<string>, id: int)
    ensures var ri := if "recipe_instructions" in cols then Cell(row, "recipe_instructions") else JNull;
      Lookup(DetailDict(row, cols, id), "recipe_instructions") ==
        Some(if ri.JNull? then JArr([]) else if ri.JStr? then StrArr(Lines(ri.s)) else ri)
  {
    var d2 := WithDefaults(Set(RowDict(row, cols), "recipe_id", JInt(id)));
    InstructionsBeforeFix(row, cols, id);
    FixInstructionsValue(d2);
  }

  /** Before the fix, the instructions are the row's own cell, or null
      without that column. */
  lemma InstructionsBeforeFix(row: Row, cols: seq<string>, id: int)
    ensures Get(WithDefaults(Set(RowDict(row, cols), "recipe_id", JInt(id))), "recipe_instructions") ==
      if "recipe_instructions" in cols then Cell(row, "recipe_instructions") else JNull
  {
    var k := "recipe_instructions";
    var d0 := RowDict(row, cols);
    var d1 := Set(d0, "recipe_id", JInt(id));
    assert k != "recipe_id" by { assert |k| == 19 && |"recipe_id"| == 9; }
    assert Lookup(d1, k) == Lookup(d0, k);
    assert k != "keywords" && k != "ingredients" by { assert |"keywords"| == 8 && |"ingredients"| == 11; }
    WithDefaultsKeeps(d1, k);
    LookupRowDict(row, cols, k);
  }

  /** What validation keeps of the fields the lemmas below are about. */
  lemma ValidatedFields(d: seq<Member>)
    requires DetailFromDict(d).Some?
    ensures var v := DetailFromDict(d).value;
      && ListField(d, "recipe_instructions") == Valid(v.recipeInstructions)
      && ListField(d, "keywords") == Valid(v.keywords)
      && StrField(d, "name") == Valid(v.name)
      && StrField(d, "description") == Valid(v.description)
  {
  }

  /** For an indexed id the detail is the validation of its first row's
      dict. */
  lemma DetailOfFirstRow(t: Table, id: int)
    requires InIndex(t, id)
    ensures DetailFor(Some(t), id) == DetailFromDict(DetailDict(FirstRowOf(t, id), t.columns, id))
  {
  }

  /** An empty list validates as the empty list. */
  lemma EmptyListField(d: seq<Member>, k: string)
    requires Lookup(d, k) == Some(JArr([]))
    ensures ListField(d, k) == Valid(Some([]))
  {
    assert StrList(JArr([])) == Valid([]);
  }

  /** A recipe whose instructions are text gets them as its lines, each
      non-empty, stripped and free of line breaks. */
  lemma InstructionsAsLines(t: Table, id: int, text: string)
    requires InIndex(t, id) && "recipe_instructions" in t.columns
    requires Cell(FirstRowOf(t, id), "recipe_instructions") == JStr(text)
    requires DetailFor(Some(t), id).Some?
    ensures DetailFor(Some(t), id).value.recipeInstructions == Some(Lines(text))
  {
    var row := FirstRowOf(t, id);
    var d := DetailDict(row, t.columns, id);
    DetailOfFirstRow(t, id);
    DetailDictInstructions(row, t.columns, id);
    var ls := Lines(text);
    StringListField(d, "recipe_instructions", ls);
    ValidatedFields(d);
  }

  /** A list of strings validates as that list. */
  lemma StringListField(d: seq<Member>, k: string, ls: seq<string>)
    requires Lookup(d, k) == Some(StrArr(ls))
    ensures ListField(d, k) == Valid(Some(ls))
  {
  }

  /** A recipe without instructions gets the empty list. */
  lemma MissingInstructionsEmpty(t: Table, id: int)
    requires InIndex(t, id)
    requires "recipe_instructions" !in t.columns || Cell(FirstRowOf(t, id), "recipe_instructions").JNull?
    requires DetailFor(Some(t), id).Some?
    ensures DetailFor(Some(t), id).value.recipeInstructions == Some([])
  {
    var d := DetailDict(FirstRowOf(t, id), t.columns, id);
    DetailOfFirstRow(t, id);
    DetailDictInstructions(FirstRowOf(t, id), t.columns, id);
    EmptyListField(d, "recipe_instructions");
    ValidatedFields(d);
  }

  /** A table without a keywords column gives the empty keyword list. */
  lemma KeywordsDefaultEmpty(t: Table, id: int)
    requires InIndex(t, id) && "keywords" !in t.columns
    requires DetailFor(Some(t), id).Some?
    ensures DetailFor(Some(t), id).value.keywords == Some([])
  {
    var d := DetailDict(FirstRowOf(t, id), t.columns, id);
    DetailOfFirstRow(t, id);
    DetailDictDefaults(FirstRowOf(t, id), t.columns, id, "keywords");
    EmptyListField(d, "keywords");
    ValidatedFields(d);
  }

  /** ingredients is a required list: a null cell fails validation, so
      the recipe has no detail. */
  lemma NullIngredientsRejected(t: Table, id: int)
    requires InIndex(t, id) && "ingredients" in t.columns
    requires Cell(FirstRowOf(t, id), "ingredients").JNull?
    ensures DetailFor(Some(t), id).None?
  {
    DetailDictKeepsCells(FirstRowOf(t, id), t.columns, id, "ingredients");
  }

  /** The name and description come from the first row with the id. */
  lemma DetailShowsFirstRow(t: Table, id: int)
    requires InIndex(t, id) && "name" in t.columns && "description" in t.columns
    requires DetailFor(Some(t), id).Some?
    ensures var row := FirstRowOf(t, id);
      && OptStr(Cell(row, "name")) == Valid(DetailFor(Some(t), id).value.name)
      && OptStr(Cell(row, "description")) == Valid(DetailFor(Some(t), id).value.description)
  {
    var row := FirstRowOf(t, id);
    DetailDictKeepsCells(row, t.columns, id, "name");
    DetailDictKeepsCells(row, t.columns, id, "description");
    ValidatedFields(DetailDict(row, t.columns, id));
  }

  class DetailService {
    var df: Option<Table>

    /** DetailService(df): falls back to the config's table. */
    constructor(df: Option<Table>, configDf: Option<Table>)
      ensures this.df == (if df.Some? then df else configDf)
    {
      this.df := if df.Some? then df else configDf;
    }

    /** get_recipe_details(recipe_id). */
    method GetRecipeDetails(id: int) returns (r: Option<RecipeDetail>)
      ensures r == DetailFor(df, id)
      ensures r.Some? ==> r.value.recipeId == id
      ensures df.None? || !InIndex(df.value, id) ==> r == None
    {
      if df.None? {
        return None;
      }
      var t := df.value;
      var j := FirstRow(t.rows, id);
      if j.None? {
        return None;
      }
      var rowDict := RowDict(t.rows[j.value], t.columns);
      rowDict := Set(rowDict, "recipe_id", JInt(id));
      rowDict := SetDefault(rowDict, "keywords", JArr([]));
      rowDict := SetDefault(rowDict, "ingredients", JArr([]));
      var ri := Get(rowDict, "recipe_instructions");
      if ri.JNull? {
        rowDict := Set(rowDict, "recipe_instructions", JArr([]));
      } else if ri.JStr? {
        rowDict := Set(rowDict, "recipe_instructions", StrArr(Lines(ri.s)));
      }
      r := DetailFromDict(rowDict);
    }
  }
}
