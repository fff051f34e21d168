/** What the recipe card of the front end (frontend/components/recipe_card.py)
    computes before it draws: the shortened description, the tags shown
    and the key of the "View Details" button. The drawing is not
    modelled. */
module RecipeCardView {
  import opened Values
  import Utility
  import Decimal

  /** Descriptions longer than this are shortened. */
  const MaxDescription: nat := 150

  /** At most this many tags are shown. */
  const MaxTags: nat := 20

  /** The position of the last ' ' in s, if any. */
  function LastSpace(s: string): (r: Option<nat>)
    ensures r.Some? ==> r.value < |s| && s[r.value] == ' ' && forall i :: r.value < i < |s| ==> s[i] != ' '
    ensures r.None? ==> forall i :: 0 <= i < |s| ==> s[i] != ' '
  {
    if s == [] then None
    else if s[|s| - 1] == ' ' then Some(|s| - 1)
    else LastSpace(s[..|s| - 1])
  }

  /** s.rsplit(' ', 1)[0]: everything before the last space, or all of s
      when it has none. */
  function BeforeLastSpace(s: string): (r: string)
    ensures |r| <= |s| && r == s[..|r|]
    ensures ' ' in s ==> |r| < |s| && s[|r|] == ' ' && forall i :: |r| < i < |s| ==> s[i] != ' '
    ensures ' ' !in s ==> r == s
  {
    match LastSpace(s)
    case Some(k) => s[..k]
    case None => s
  }

  /** description[:150].rsplit(' ', 1)[0] + "...": never longer than 153
      characters and ending in "..."; what precedes the dots is the first
      150 characters cut just before their last space, or all of them when
      they have no space. */
  function Shorten(s: string): (r: string)
    ensures 3 <= |r| <= MaxDescription + 3 && r[|r| - 3..] == "..."
    ensures var kept := r[..|r| - 3];
      && |kept| <= |s| && kept == s[..|kept|]
      && (' ' in s[..Min(MaxDescription, |s|)] ==>
            |kept| < Min(MaxDescription, |s|) && s[|kept|] == ' '
            && forall i :: |kept| < i < Min(MaxDescription, |s|) ==> s[i] != ' ')
      && (' ' !in s[..Min(MaxDescription, |s|)] ==> kept == s[..Min(MaxDescription, |s|)])
  {
    var head := s[..Min(MaxDescription, |s|)];
    var kept := BeforeLastSpace(head);
    var r := kept + "...";
    assert r[..|r| - 3] == kept && r[|r| - 3..] == "...";
    r
  }

  /** The description shown: a string longer than 150 characters is
      shortened, anything else (an empty or missing one included) is shown
      as it is. */
  function ShownDescription(recipe: seq<Member>): (r: Json)
    ensures var d := GetOr(recipe, "description", JStr(""));
      (d.JStr? && |d.s| > MaxDescription ==> r == JStr(Shorten(d.s)))
      && (!(d.JStr? && |d.s| > MaxDescription) ==> r == d)
  {
    var d := GetOr(recipe, "description", JStr(""));
    if d.JStr? && |d.s| > MaxDescription then JStr(Shorten(d.s)) else d
  }

  /** recipe.get("keywords") or recipe.get("tags") or []. */
  function RawTags(recipe: seq<Member>): (r: Json)
    ensures Truthy(Get(recipe, "keywords")) ==> r == Get(recipe, "keywords")
    ensures !Truthy(Get(recipe, "keywords")) && Truthy(Get(recipe, "tags")) ==> r == Get(recipe, "tags")
    ensures !Truthy(Get(recipe, "keywords")) && !Truthy(Get(recipe, "tags")) ==> r == JArr([])
  {
    var k := Get(recipe, "keywords");
    if Truthy(k) then k
    else
      var t := Get(recipe, "tags");
      if Truthy(t) then t else JArr([])
  }

  /** normalize_to_list(tags_raw)[:20]. */
  function ShownTags(recipe: seq<Member>): (r: seq<string>)
    ensures var all := Utility.NormalizeToList(RawTags(recipe));
      |r| == Min(MaxTags, |all|) && r == all[..|r|]
  {
    var all := Utility.NormalizeToList(RawTags(recipe));
    all[..Min(MaxTags, |all|)]
  }

  /** A card whose keywords are a list shows its first 20 keywords, each
      as str() prints it, in order. */
  lemma ListTagsShown(recipe: seq<Member>)
    requires Get(recipe, "keywords").JArr? && Get(recipe, "keywords").items != []
    ensures var xs := Get(recipe, "keywords").items;
      |ShownTags(recipe)| == Min(20, |xs|)
      && forall i :: 0 <= i < |ShownTags(recipe)| ==> ShownTags(recipe)[i] == Utility.Str(xs[i])
  {
  }

  /** recipe.get('id') or recipe.get('recipe_id'). */
  function ButtonId(recipe: seq<Member>): (r: Json)
    ensures Truthy(Get(recipe, "id")) ==> r == Get(recipe, "id")
    ensures !Truthy(Get(recipe, "id")) ==> r == Get(recipe, "recipe_id")
  {
    var id := Get(recipe, "id");
    if Truthy(id) then id else Get(recipe, "recipe_id")
  }

  /** The key of the "View Details" button. */
  function ButtonKey(recipe: seq<Member>): string
  {
    "detail-" + Utility.Str(ButtonId(recipe))
  }

  /** A card from the API has no "id" key, so its button is keyed by its
      recipe id; different recipe ids give different keys. */
  lemma CardKeyedByRecipeId(recipe: seq<Member>, other: seq<Member>)
    requires Lookup(recipe, "id").None? && Lookup(other, "id").None?
    requires Get(recipe, "recipe_id").JInt? && Get(other, "recipe_id").JInt?
    requires Get(recipe, "recipe_id") != Get(other, "recipe_id")
    ensures ButtonKey(recipe) == "detail-" + Utility.Str(Get(recipe, "recipe_id"))
    ensures ButtonKey(recipe) != ButtonKey(other)
  {
    var a, b := Get(recipe, "recipe_id").i, Get(other, "recipe_id").i;
    assert ButtonKey(recipe)[7..] == Utility.Str(JInt(a));
    assert ButtonKey(other)[7..] == Utility.Str(JInt(b));
  }
}
