/** The query cleaner (app/utils/data_preprocessor.py): lower-case, delete
    digits, delete punctuation, delete underscores, collapse whitespace runs
    to one space, strip. */
module DataPreprocessor {
  import opened Values
  import opened Text

  /** str.lower(). */
  function LowerAll(s: string): (r: string)
    ensures |r| == |s| && forall i :: 0 <= i < |s| ==> r[i] == Lower(s[i])
  {
    seq(|s|, i requires 0 <= i < |s| => Lower(s[i]))
  }

  /** re.sub(pattern, "", s) for a pattern that matches runs of one
      character class: deletes every character `keep` rejects. */
  function Filter(s: string, keep: char -> bool): (r: string)
    ensures |r| <= |s|
    ensures forall c :: c in r ==> keep(c) && c in s
  {
    if s == [] then []
    else (if keep(s[0]) then [s[0]] else []) + Filter(s[1..], keep)
  }

  /** Survives re.sub(r"\d+", "", t). */
  predicate NotDigit(c: char) { !IsDigit(c) }

  /** Survives re.sub(r"[^\w\s]", "", t). */
  predicate WordOrSpace(c: char) { IsWord(c) || IsSpace(c) }

  /** Survives re.sub(r"_+", "", t). */
  predicate NotUnderscore(c: char) { c != '_' }

  /** re.sub(r"\s+", " ", s): every maximal run of whitespace becomes one
      space. */
  function CollapseSpaces(s: string): (r: string)
    ensures |r| <= |s|
    ensures forall c :: c in r ==> c == ' ' || (!IsSpace(c) && c in s)
    ensures NoDoubleSpace(r)
    ensures s == [] <==> r == []
    ensures s != [] ==> (IsSpace(s[0]) <==> r[0] == ' ') && (!IsSpace(s[0]) ==> r[0] == s[0])
    ensures Filter(r, NonSpace) == Filter(s, NonSpace)
  {
    if s == [] then []
    else if IsSpace(s[0]) then
      var rest := CollapseSpaces(StripStart(s));
      FilterStripStart(s);
      assert ([' '] + rest)[1..] == rest;
      [' '] + rest
    else
      var rest := CollapseSpaces(s[1..]);
      assert ([s[0]] + rest)[1..] == rest;
      [s[0]] + rest
  }

  /** A character that is not whitespace. */
  predicate NonSpace(c: char) { !IsSpace(c) }

  /** No whitespace run crosses a cut after a non-space character, so the
      two sides collapse on their own. */
  lemma {:induction false} CollapseAppend(a: string, b: string)
    requires a == [] || !IsSpace(a[|a| - 1])
    ensures CollapseSpaces(a + b) == CollapseSpaces(a) + CollapseSpaces(b)
    decreases |a|
  {
    if a == [] {
      assert a + b == b;
    } else if IsSpace(a[0]) {
      var t := StripStart(a);
      StripStartAppend(a, b);
      assert (a + b)[0] == a[0];
      CollapseAppend(t, b);
      AppendAssoc([' '], CollapseSpaces(t), CollapseSpaces(b));
    } else {
      assert (a + b)[0] == a[0] && (a + b)[1..] == a[1..] + b;
      CollapseAppend(a[1..], b);
      AppendAssoc([a[0]], CollapseSpaces(a[1..]), CollapseSpaces(b));
    }
  }

  /** One step of collapsing: a leading run becomes one ' ', a leading
      non-space character is kept. */
  lemma CollapseStep(s: string)
    requires s != []
    ensures IsSpace(s[0]) ==> CollapseSpaces(s) == [' '] + CollapseSpaces(StripStart(s))
    ensures !IsSpace(s[0]) ==> CollapseSpaces(s) == [s[0]] + CollapseSpaces(s[1..])
  {
  }

  /** A leading whitespace run followed by b collapses to ' ' and b's
      collapse. */
  lemma CollapseRunAlone(w: string, b: string)
    requires w != [] && forall i :: 0 <= i < |w| ==> IsSpace(w[i])
    requires b == [] || !IsSpace(b[0])
    ensures CollapseSpaces(w + b) == [' '] + CollapseSpaces(b)
  {
    StripStartRun(w, b);
    assert (w + b)[0] == w[0];
    CollapseStep(w + b);
  }

  /** A whole whitespace run, whatever its length and its whitespace
      characters, becomes exactly one ' ', and nothing on either side of it
      changes. */
  lemma CollapseRun(a: string, w: string, b: string)
    requires a == [] || !IsSpace(a[|a| - 1])
    requires w != [] && forall i :: 0 <= i < |w| ==> IsSpace(w[i])
    requires b == [] || !IsSpace(b[0])
    ensures CollapseSpaces(a + w + b) == CollapseSpaces(a) + [' '] + CollapseSpaces(b)
  {
    CollapseRunSplit(a, w, b);
    CollapseRunAlone(w, b);
    AppendAssoc(CollapseSpaces(a), [' '], CollapseSpaces(b));
  }

  /** The text before a run collapses on its own. */
  lemma CollapseRunSplit(a: string, w: string, b: string)
    requires a == [] || !IsSpace(a[|a| - 1])
    ensures CollapseSpaces(a + w + b) == CollapseSpaces(a) + CollapseSpaces(w + b)
  {
    var wb := w + b;
    assert a + w + b == a + wb;
    CollapseAppend(a, wb);
  }

  /** Text ending in a non-space character still ends in it once its runs
      are collapsed. */
  lemma {:induction false} CollapseLast(s: string)
    requires s != [] && !IsSpace(s[|s| - 1])
    ensures CollapseSpaces(s) != [] && CollapseSpaces(s)[|CollapseSpaces(s)| - 1] == s[|s| - 1]
    decreases |s|
  {
    CollapseStep(s);
    if IsSpace(s[0]) {
      StripStartKeepsLast(s);
      CollapseLast(StripStart(s));
    } else if |s| > 1 {
      CollapseLast(s[1..]);
    }
  }

  /** Leading whitespace holds no character that is not whitespace. */
  lemma {:induction false} FilterStripStart(s: string)
    ensures Filter(StripStart(s), NonSpace) == Filter(s, NonSpace)
  {
    if s != [] && IsSpace(s[0]) {
      FilterStripStart(s[1..]);
    }
  }

  /** Trailing whitespace holds no character that is not whitespace. */
  lemma {:induction false} FilterStripEnd(s: string)
    ensures Filter(StripEnd(s), NonSpace) == Filter(s, NonSpace)
  {
    if s != [] && IsSpace(s[|s| - 1]) {
      var init, last := s[..|s| - 1], s[|s| - 1];
      FilterStripEnd(init);
      FilterAppend(init, [last], NonSpace);
      assert [last][1..] == [];
      assert init + [last] == s;
    }
  }

  /** No two neighbouring characters are both spaces. */
  predicate NoDoubleSpace(s: string)
  {
    forall i :: 0 <= i < |s| - 1 ==> s[i] != ' ' || s[i + 1] != ' '
  }

  /** clean_text: None and "" give "" (the `if not text` guard). */
  function CleanText(text: Option<string>): (r: string)
    ensures text.None? || text == Some([]) ==> r == []
    ensures text.Some? ==> |r| <= |text.value|
  {
    match text
    case None => ""
    case Some(t) =>
      if t == [] then ""
      else Strip(CollapseSpaces(Deletions(LowerAll(t))))
  }

  /** The three deleting substitutions, in the order the source applies them. */
  function Deletions(t: string): string
  {
    Filter(Filter(Filter(t, NotDigit), WordOrSpace), NotUnderscore)
  }

  /** A character of cleaned text: a single space, or a lower-case word
      character that is neither a digit nor an underscore. */
  predicate CleanChar(c: char)
  {
    c == ' ' || (IsWord(c) && !IsSpace(c) && !IsDigit(c) && c != '_' && !IsUpper(c))
  }

  /** What cleaned text looks like: only clean characters, no whitespace at
      either end, and every whitespace run is exactly one ' '. */
  predicate IsClean(s: string)
  {
    (forall c :: c in s ==> CleanChar(c)) && Trimmed(s) && NoDoubleSpace(s)
  }

  /** A character the cleaner deletes outright: a digit, an underscore, or
      a character that is neither a word character nor whitespace. */
  predicate Deleted(c: char)
  {
    IsDigit(c) || c == '_' || !(IsWord(c) || IsSpace(c))
  }

  lemma DeletionsChars(t: string)
    requires forall c :: c in t ==> !IsUpper(c)
    ensures forall c :: c in Deletions(t) ==> CleanChar(c) || IsSpace(c)
  {
    var t1 := Filter(t, NotDigit);
    var t2 := Filter(t1, WordOrSpace);
    var t3 := Filter(t2, NotUnderscore);
    forall c | c in t3
      ensures CleanChar(c) || IsSpace(c)
    {
      assert c in t2 && c in t1 && c in t;
    }
  }

  /** Collapsing and stripping text whose every character is clean or
      whitespace gives clean text. */
  lemma CollapseStripClean(s: string)
    requires forall c :: c in s ==> CleanChar(c) || IsSpace(c)
    ensures IsClean(Strip(CollapseSpaces(s)))
  {
    CollapseChars(s);
    StripKeepsClean(CollapseSpaces(s));
  }

  /** Stripping clean characters with no double space gives clean text. */
  lemma StripKeepsClean(col: string)
    requires forall c :: c in col ==> CleanChar(c)
    requires NoDoubleSpace(col)
    ensures IsClean(Strip(col))
  {
    StripIsSlice(col);
    StripIsTrimmed(col);
    CleanSlice(col, Strip(col), |col| - |StripStart(col)|);
  }

  lemma CollapseChars(s: string)
    requires forall c :: c in s ==> CleanChar(c) || IsSpace(c)
    ensures forall c :: c in CollapseSpaces(s) ==> CleanChar(c)
  {
  }

  /** A slice of clean characters with no double space keeps both. */
  lemma CleanSlice(col: string, r: string, lo: nat)
    requires lo + |r| <= |col| && r == col[lo..lo + |r|]
    requires forall c :: c in col ==> CleanChar(c)
    requires NoDoubleSpace(col)
    ensures forall c :: c in r ==> CleanChar(c)
    ensures NoDoubleSpace(r)
    ensures Trimmed(r) ==> IsClean(r)
  {
    forall c | c in r
      ensures CleanChar(c)
    {
      var k :| 0 <= k < |r| && r[k] == c;
      assert col[lo + k] == c;
    }
    forall i | 0 <= i < |r| - 1
      ensures r[i] != ' ' || r[i + 1] != ' '
    {
      assert r[i] == col[lo + i] && r[i + 1] == col[lo + i + 1];
    }
  }

  /** The output of the cleaner is clean. */
  lemma CleanTextIsClean(text: Option<string>)
    ensures IsClean(CleanText(text))
  {
    if text.Some? && text.value != [] {
      var low := LowerAll(text.value);
      assert forall c :: c in low ==> !IsUpper(c);
      DeletionsChars(low);
      CollapseStripClean(Deletions(low));
    }
  }

  lemma {:induction false} FilterKeepsAll(s: string, keep: char -> bool)
    requires forall c :: c in s ==> keep(c)
    ensures Filter(s, keep) == s
  {
    if s != [] {
      FilterKeepsAll(s[1..], keep);
    }
  }

  lemma {:induction false} FilterAppend(x: string, y: string, keep: char -> bool)
    ensures Filter(x + y, keep) == Filter(x, keep) + Filter(y, keep)
  {
    if x != [] {
      var head := if keep(x[0]) then [x[0]] else [];
      calc {
        Filter(x + y, keep);
        { assert (x + y)[0] == x[0] && (x + y)[1..] == x[1..] + y; }
        head + Filter(x[1..] + y, keep);
        { FilterAppend(x[1..], y, keep); }
        head + (Filter(x[1..], keep) + Filter(y, keep));
        { AppendAssoc(head, Filter(x[1..], keep), Filter(y, keep)); }
        (head + Filter(x[1..], keep)) + Filter(y, keep);
        Filter(x, keep) + Filter(y, keep);
      }
    } else {
      assert x + y == y;
    }
  }

  lemma AppendAssoc<T>(a: seq<T>, b: seq<T>, c: seq<T>)
    ensures a + (b + c) == (a + b) + c
  {
  }

  lemma {:induction false} CollapseKeepsClean(s: string)
    requires forall i :: 0 <= i < |s| ==> IsSpace(s[i]) ==> s[i] == ' '
    requires NoDoubleSpace(s)
    ensures CollapseSpaces(s) == s
  {
    if s != [] {
      if IsSpace(s[0]) {
        assert StripStart(s) == s[1..] by {
          if |s| > 1 {
            assert s[1] != ' ';
          }
        }
      }
      CollapseKeepsClean(s[1..]);
    }
  }

  /** Each step of the cleaner leaves clean text as it is. */
  lemma {:induction false} CleanFixedPoint(t: string)
    requires IsClean(t) && t != []
    ensures CleanText(Some(t)) == t
  {
    forall i | 0 <= i < |t|
      ensures LowerAll(t)[i] == t[i]
    {
      assert CleanChar(t[i]);
    }
    assert LowerAll(t) == t;
    FilterKeepsAll(t, NotDigit);
    FilterKeepsAll(t, WordOrSpace);
    FilterKeepsAll(t, NotUnderscore);
    assert Deletions(t) == t;
    forall i | 0 <= i < |t| && IsSpace(t[i])
      ensures t[i] == ' '
    {
      assert CleanChar(t[i]);
    }
    CollapseKeepsClean(t);
    StripTrimmed(t);
  }

  /** Apart from its spaces, the cleaned query is the lower-cased input
      with the deleted characters taken out, nothing else removed and the
      order kept: "Hello,  WORLD" keeps "helloworld". */
  lemma CleanTextKeepsCharacters(t: string)
    ensures Filter(CleanText(Some(t)), NonSpace) == Filter(Deletions(LowerAll(t)), NonSpace)
  {
    if t != [] {
      var col := CollapseSpaces(Deletions(LowerAll(t)));
      FilterStripStart(col);
      FilterStripEnd(StripStart(col));
    } else {
      assert LowerAll(t) == [];
    }
  }

  /** Cleaning is idempotent: cleaned text passes through unchanged. */
  lemma CleanTextIdempotent(text: Option<string>)
    ensures CleanText(Some(CleanText(text))) == CleanText(text)
  {
    CleanTextIsClean(text);
    if CleanText(text) != [] {
      CleanFixedPoint(CleanText(text));
    }
  }

  lemma LowerAllAppend(x: string, y: string)
    ensures LowerAll(x + y) == LowerAll(x) + LowerAll(y)
  {
  }

  lemma DeletionsAppend(x: string, y: string)
    ensures Deletions(x + y) == Deletions(x) + Deletions(y)
  {
    FilterAppend(x, y, NotDigit);
    var x1, y1 := Filter(x, NotDigit), Filter(y, NotDigit);
    FilterAppend(x1, y1, WordOrSpace);
    var x2, y2 := Filter(x1, WordOrSpace), Filter(y1, WordOrSpace);
    FilterAppend(x2, y2, NotUnderscore);
  }

  lemma DeletedSingle(c: char)
    requires Deleted(c)
    ensures LowerAll([c]) == [c] && Deletions([c]) == []
  {
    assert !IsUpper(c);
    var t1 := Filter([c], NotDigit);
    if IsDigit(c) {
      assert t1 == [];
    } else {
      assert t1 == [c];
      var t2 := Filter(t1, WordOrSpace);
      if !WordOrSpace(c) {
        assert t2 == [];
      } else {
        assert t2 == [c] && c == '_';
      }
    }
  }

  lemma DeletedCharVanishes(a: string, c: char, b: string)
    requires Deleted(c)
    ensures Deletions(LowerAll(a + [c] + b)) == Deletions(LowerAll(a + b))
  {
    DeletedSingle(c);
    var la, lb := LowerAll(a), LowerAll(b);
    calc {
      Deletions(LowerAll(a + [c] + b));
      { LowerAllAppend(a + [c], b); LowerAllAppend(a, [c]); }
      Deletions(la + [c] + lb);
      { DeletionsAppend(la + [c], lb); DeletionsAppend(la, [c]); }
      Deletions(la) + Deletions(lb);
      { DeletionsAppend(la, lb); LowerAllAppend(a, b); }
      Deletions(LowerAll(a + b));
    }
  }

  /** A deleted character vanishes without leaving a space: its neighbours
      join ("Pasta-Carbonara" gives "pastacarbonara", "snake_case" gives
      "snakecase"). */
  lemma DeletedCharJoinsNeighbours(a: string, c: char, b: string)
    requires Deleted(c)
    ensures CleanText(Some(a + [c] + b)) == CleanText(Some(a + b))
  {
    DeletedCharVanishes(a, c, b);
    if a + b == [] {
      assert Deletions(LowerAll(a + b)) == [];
    }
  }

  lemma {:induction false} OnlyDeletedVanish(t: string)
    requires forall c :: c in t ==> Deleted(c)
    ensures Deletions(LowerAll(t)) == []
  {
    if t != [] {
      OnlyDeletedVanish(t[1..]);
      assert t == [] + [t[0]] + t[1..];
      assert [] + t[1..] == t[1..];
      DeletedCharVanishes([], t[0], t[1..]);
    }
  }

  /** Text made only of deleted characters (digits, punctuation,
      underscores) cleans to "". */
  lemma OnlyDeletedGivesEmpty(t: string)
    requires forall c :: c in t ==> Deleted(c)
    ensures CleanText(Some(t)) == ""
  {
    OnlyDeletedVanish(t);
  }

  /** A character cleaning keeps, lower-cased, and that is not whitespace:
      a letter or any other word character except a digit or '_'. */
  predicate Kept(c: char)
  {
    !Deleted(c) && !IsSpace(c)
  }

  lemma KeptSingle(c: char)
    requires Kept(c)
    ensures Deletions(LowerAll([c])) == [Lower(c)] && !IsSpace(Lower(c))
  {
    var l := Lower(c);
    assert LowerAll([c]) == [l];
    assert Filter([l], NotDigit) == [l];
    assert Filter([l], WordOrSpace) == [l];
    assert Filter([l], NotUnderscore) == [l];
  }

  /** Whitespace passes through lower-casing and the deletions unchanged. */
  lemma SpacesSurvive(w: string)
    requires forall i :: 0 <= i < |w| ==> IsSpace(w[i])
    ensures Deletions(LowerAll(w)) == w
  {
    assert LowerAll(w) == w;
    FilterKeepsAll(w, NotDigit);
    FilterKeepsAll(w, WordOrSpace);
    FilterKeepsAll(w, NotUnderscore);
  }

  /** Text ending in a kept character ends, after the deletions, in that
      character lower-cased. */
  lemma DeletionsEnd(a: string)
    requires a != [] && Kept(a[|a| - 1])
    ensures var d := Deletions(LowerAll(a)); d != [] && d[|d| - 1] == Lower(a[|a| - 1])
    ensures !IsSpace(Lower(a[|a| - 1]))
  {
    var init, c := a[..|a| - 1], a[|a| - 1];
    assert a == init + [c];
    LowerAllAppend(init, [c]);
    DeletionsAppend(LowerAll(init), LowerAll([c]));
    KeptSingle(c);
  }

  /** Text starting with a kept character starts, after the deletions,
      with that character lower-cased. */
  lemma DeletionsStart(b: string)
    requires b != [] && Kept(b[0])
    ensures var d := Deletions(LowerAll(b)); d != [] && d[0] == Lower(b[0])
    ensures !IsSpace(Lower(b[0]))
  {
    assert b == [b[0]] + b[1..];
    LowerAllAppend([b[0]], b[1..]);
    DeletionsAppend(LowerAll([b[0]]), LowerAll(b[1..]));
    KeptSingle(b[0]);
  }

  /** Lower-casing and the deletions work piece by piece on a + w + b, and
      leave the whitespace run w as it is. */
  lemma DeletionsAroundRun(a: string, w: string, b: string)
    requires forall i :: 0 <= i < |w| ==> IsSpace(w[i])
    ensures Deletions(LowerAll(a + w + b)) == Deletions(LowerAll(a)) + w + Deletions(LowerAll(b))
  {
    LowerAllAppend(a + w, b);
    LowerAllAppend(a, w);
    DeletionsAppend(LowerAll(a) + LowerAll(w), LowerAll(b));
    DeletionsAppend(LowerAll(a), LowerAll(w));
    SpacesSurvive(w);
  }

  /** Collapsing then stripping x, a whitespace run and y, where x ends
      and y starts with a non-space character, treats x and y apart and
      puts one space between them. */
  lemma CollapseStripJoin(x: string, w: string, y: string)
    requires x != [] && !IsSpace(x[|x| - 1])
    requires w != [] && forall i :: 0 <= i < |w| ==> IsSpace(w[i])
    requires y != [] && !IsSpace(y[0])
    ensures Strip(CollapseSpaces(x + w + y)) == Strip(CollapseSpaces(x)) + [' '] + Strip(CollapseSpaces(y))
  {
    CollapseRun(x, w, y);
    CollapseLast(x);
    StripJoin(CollapseSpaces(x), CollapseSpaces(y));
  }

  lemma CleanTextUnfold(t: string)
    requires t != []
    ensures CleanText(Some(t)) == Strip(CollapseSpaces(Deletions(LowerAll(t))))
  {
  }

  /** Two words separated by any whitespace run, of any length and of any
      whitespace characters, come out separated by exactly one space:
      "Hello \t\n World" cleans to "hello" + " " + "world". */
  lemma WordsKeepOneSpace(a: string, w: string, b: string)
    requires a != [] && Kept(a[|a| - 1])
    requires w != [] && forall i :: 0 <= i < |w| ==> IsSpace(w[i])
    requires b != [] && Kept(b[0])
    ensures CleanText(Some(a + w + b)) == CleanText(Some(a)) + [' '] + CleanText(Some(b))
  {
    var da, db := Deletions(LowerAll(a)), Deletions(LowerAll(b));
    calc {
      CleanText(Some(a + w + b));
      { CleanTextUnfold(a + w + b); }
      Strip(CollapseSpaces(Deletions(LowerAll(a + w + b))));
      { DeletionsAroundRun(a, w, b); }
      Strip(CollapseSpaces(da + w + db));
      { DeletionsEnd(a); DeletionsStart(b); CollapseStripJoin(da, w, db); }
      Strip(CollapseSpaces(da)) + [' '] + Strip(CollapseSpaces(db));
      { CleanTextUnfold(a); CleanTextUnfold(b); }
      CleanText(Some(a)) + [' '] + CleanText(Some(b));
    }
  }
}
