/** normalize_to_list (frontend/utils/utility.py): turns a tag or
    ingredient field of any shape into a list of strings. */
module Utility {
  import opened Values
  import opened Text
  import Decimal

  /** str(v) for a JSON-shaped Python value. */
  function Str(v: Json): (r: string)
    ensures v.JStr? ==> r == v.s
    ensures v.JInt? ==> Decimal.ParseInt(r) == Some(v.i)
    ensures v.JArr? ==> |r| >= 2 && r[0] == '[' && r[|r| - 1] == ']'
    ensures v.JObj? ==> |r| >= 2 && r[0] == '{' && r[|r| - 1] == '}'
    decreases v, 1, 0
  {
    match v
    case JNull => "None"
    case JBool(b) => if b then "True" else "False"
    case JInt(i) =>
      Decimal.ParseFromInt(i);
      Decimal.FromInt(i)
    case JFloat(f) => f.repr
    case JStr(s) => s
    case JArr(_) => "[" + ReprItems(v, 0) + "]"
    case JObj(_) => "{" + ReprMembers(v, 0) + "}"
  }

  /** repr(v): strings are quoted, everything else prints as str(v). */
  function Repr(v: Json): (r: string)
    ensures v.JStr? ==> |r| == |v.s| + 2 && r[0] == '\'' && r[|r| - 1] == '\'' && r[1..|r| - 1] == v.s
    ensures !v.JStr? ==> r == Str(v)
    decreases v, 2, 0
  {
    if v.JStr? then Quote(v.s) else Str(v)
  }

  function Quote(s: string): string
  {
    "'" + s + "'"
  }

  /** The items of a list from position i on, as repr() separates them. */
  function ReprItems(v: Json, i: nat): string
    requires v.JArr? && i <= |v.items|
    decreases v, 0, |v.items| - i
  {
    if i == |v.items| then ""
    else (if i > 0 then ", " else "") + Repr(v.items[i]) + ReprItems(v, i + 1)
  }

  /** The members of a dict from position i on, as repr() separates them. */
  function ReprMembers(v: Json, i: nat): string
    requires v.JObj? && i <= |v.members|
    decreases v, 0, |v.members| - i
  {
    if i == |v.members| then ""
    else
      var m := v.members[i];
      assert m.val < m;
      (if i > 0 then ", " else "") + Quote(m.key) + ": " + Repr(m.val) + ReprMembers(v, i + 1)
  }

  /** normalize_to_list: None gives [], a list gives its items as strings,
      a string is split on '|' if it has one, else on ',' if it has one,
      else kept whole, and any other value gives [str(value)]. */
  function NormalizeToList(v: Json): (r: seq<string>)
    ensures v.JNull? ==> r == []
    ensures v.JArr? ==> |r| == |v.items| && forall i :: 0 <= i < |r| ==> r[i] == Str(v.items[i])
    ensures v.JStr? && '|' in v.s ==>
      forall e :: e in r ==> e != [] && Trimmed(e) && '|' !in e
    ensures v.JStr? && '|' !in v.s && ',' in v.s ==>
      forall e :: e in r ==> e != [] && Trimmed(e) && ',' !in e && '|' !in e
    ensures v.JStr? && '|' !in v.s && ',' !in v.s ==> r == [v.s]
    ensures !(v.JNull? || v.JArr? || v.JStr?) ==> r == [Str(v)]
  {
    match v
    case JNull => []
    case JArr(xs) => seq(|xs|, i requires 0 <= i < |xs| => Str(xs[i]))
    case JStr(s) =>
      if '|' in s then SplitTrimmed(s, '|')
      else if ',' in s then SplitTrimmed(s, ',')
      else [s]
    case _ => [Str(v)]
  }

  /** [p.strip() for p in s.split(d) if p.strip()]. */
  function SplitTrimmed(s: string, d: char): (r: seq<string>)
    ensures forall e :: e in r ==> e != [] && Trimmed(e)
    ensures forall e, c :: e in r && c in e ==> c != d && c in s
  {
    TrimmedPiecesChars(s, {d});
    TrimmedNonBlank(SplitOn(s, {d}))
  }

  /** A string with a '|' is cut only at its bars: the non-blank trimmed
      pieces are those of the bar-free pieces that give the string back
      when rejoined with the bars, so commas stay inside the pieces. */
  lemma BarsTakePriority(s: string)
    requires '|' in s
    ensures var pieces := SplitOn(s, {'|'});
      && NormalizeToList(JStr(s)) == TrimmedNonBlank(pieces)
      && Rejoin(pieces, Separators(s, {'|'})) == s
      && (forall p :: p in pieces ==> '|' !in p)
  {
    NormalizeSplits(s, '|');
    SplitOnRejoin(s, {'|'});
  }

  /** A string with a ',' and no '|' is cut at its commas in the same way. */
  lemma CommasWithoutBars(s: string)
    requires '|' !in s && ',' in s
    ensures var pieces := SplitOn(s, {','});
      && NormalizeToList(JStr(s)) == TrimmedNonBlank(pieces)
      && Rejoin(pieces, Separators(s, {','})) == s
      && (forall p :: p in pieces ==> ',' !in p)
  {
    NormalizeSplits(s, ',');
    SplitOnRejoin(s, {','});
  }

  /** The delimiter normalize_to_list picks for a string: '|' first, then
      ','. */
  lemma NormalizeSplits(s: string, d: char)
    requires d == '|' || d == ','
    requires d in s && (d == ',' ==> '|' !in s)
    ensures NormalizeToList(JStr(s)) == TrimmedNonBlank(SplitOn(s, {d}))
  {
    assert NormalizeToList(JStr(s)) == SplitTrimmed(s, d);
  }
}
