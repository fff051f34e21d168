/** Python's str(int) and int(str) on decimal integers: the vector index
    stores recipe ids as decimal strings and the search parses them back. */
module Decimal {
  import opened Values
  import opened Text

  function DigitChar(d: nat): (c: char)
    requires d < 10
    ensures IsDigit(c)
  {
    ('0' as int + d) as char
  }

  function DigitValue(c: char): (d: nat)
    requires IsDigit(c)
    ensures d < 10 && DigitChar(d) == c
  {
    c as int - '0' as int
  }

  predicate AllDigits(s: string)
  {
    forall i :: 0 <= i < |s| ==> IsDigit(s[i])
  }

  /** str(n) for n >= 0: its decimal digits, most significant first, with
      no leading zero. */
  function NatToString(n: nat): (s: string)
    ensures s != [] && AllDigits(s)
    ensures |s| > 1 ==> s[0] != '0'
  {
    if n < 10 then [DigitChar(n)] else NatToString(n / 10) + [DigitChar(n % 10)]
  }

  /** str(n). */
  function FromInt(n: int): (s: string)
    ensures s != [] && (n < 0 <==> s[0] == '-')
    ensures n >= 0 ==> AllDigits(s) && (|s| > 1 ==> s[0] != '0')
  {
    if n < 0 then "-" + NatToString(-n) else NatToString(n)
  }

  /** The number a string of decimal digits denotes. */
  function DigitsValue(s: string): nat
    requires AllDigits(s)
  {
    if s == [] then 0 else DigitsValue(s[..|s| - 1]) * 10 + DigitValue(s[|s| - 1])
  }

  /** int(s): optional surrounding whitespace, an optional sign, then one or
      more decimal digits; anything else is a ValueError (None here). */
  function ParseInt(s: string): Option<int>
  {
    ParseStripped(Strip(s))
  }

  /** int() on a string already stripped of whitespace. */
  function ParseStripped(t: string): Option<int>
  {
    if t == [] then None
    else if t[0] == '-' || t[0] == '+' then
      if |t| > 1 && AllDigits(t[1..]) then
        var v: int := DigitsValue(t[1..]);
        Some(if t[0] == '-' then -v else v)
      else None
    else if AllDigits(t) then Some(DigitsValue(t))
    else None
  }

  /** What int() accepts: after stripping, a sign or a digit comes first,
      and only a leading minus gives a negative number. */
  lemma ParseIntAccepts(s: string)
    requires ParseInt(s).Some?
    ensures Strip(s) != [] && (Strip(s)[0] in {'-', '+'} || IsDigit(Strip(s)[0]))
    ensures ParseInt(s).value < 0 ==> Strip(s)[0] == '-'
  {
  }

  lemma {:induction false} DigitsOfNat(n: nat)
    ensures DigitsValue(NatToString(n)) == n
  {
    if n >= 10 {
      DigitsOfNat(n / 10);
      var s := NatToString(n);
      assert s[..|s| - 1] == NatToString(n / 10);
    }
  }

  /** The id round trip: int(str(n)) == n for every integer n. */
  lemma ParseFromInt(n: int)
    ensures ParseInt(FromInt(n)) == Some(n)
  {
    if n < 0 {
      ParseFromNegative(n);
    } else {
      ParseFromNatural(n);
    }
  }

  lemma ParseFromNegative(n: int)
    requires n < 0
    ensures ParseInt(FromInt(n)) == Some(n)
  {
    NegativeDigits(n);
    ParseNegDigits(FromInt(n));
  }

  lemma NegativeDigits(n: int)
    requires n < 0
    ensures |FromInt(n)| > 1 && FromInt(n)[0] == '-'
    ensures AllDigits(FromInt(n)[1..]) && DigitsValue(FromInt(n)[1..]) == -n
  {
    var d := NatToString(-n);
    DigitsOfNat(-n);
    assert ("-" + d)[1..] == d;
  }

  lemma ParseFromNatural(n: nat)
    ensures ParseInt(FromInt(n)) == Some(n)
  {
    DigitsOfNat(n);
    ParseDigits(NatToString(n));
  }

  lemma DigitNotSpace(c: char)
    requires IsDigit(c)
    ensures !IsSpace(c)
  {
  }

  /** A plain run of digits parses to the number it denotes. */
  lemma ParseDigits(d: string)
    requires d != [] && AllDigits(d)
    ensures ParseInt(d) == Some(DigitsValue(d))
  {
    DigitNotSpace(d[0]);
    DigitNotSpace(d[|d| - 1]);
    StripTrimmed(d);
  }

  /** A minus sign before a run of digits negates it. */
  lemma ParseNegDigits(s: string)
    requires |s| > 1 && s[0] == '-' && AllDigits(s[1..])
    ensures ParseInt(s) == Some(-(DigitsValue(s[1..]) as int))
  {
    assert IsDigit(s[1..][|s| - 2]);
    DigitNotSpace(s[|s| - 1]);
    StripTrimmed(s);
    ParseNegStripped(s);
  }

  lemma ParseNegStripped(t: string)
    requires |t| > 1 && t[0] == '-' && AllDigits(t[1..])
    ensures ParseStripped(t) == Some(-(DigitsValue(t[1..]) as int))
  {
  }

  /** Distinct ids get distinct strings, so the index never merges two ids. */
  lemma FromIntInjective(m: int, n: int)
    requires FromInt(m) == FromInt(n)
    ensures m == n
  {
    ParseFromInt(m);
    ParseFromInt(n);
  }

  /** [int(s) for s in strs]: the first string that is not an integer
      literal raises. */
  function ParseAll(strs: seq<string>): (r: Result<seq<int>, string>)
    ensures r.Ok? ==> |r.value| == |strs|
    ensures r.Err? ==> r.error in strs && ParseInt(r.error).None?
  {
    if strs == [] then Ok([])
    else match ParseInt(strs[0])
      case None => Err(strs[0])
      case Some(n) =>
        match ParseAll(strs[1..])
        case Err(e) => Err(e)
        case Ok(ns) => Ok([n] + ns)
  }

  /** A failed parse reports the FIRST string that is not an integer
      literal: every string before it parses. */
  lemma {:induction false} ParseAllFailure(strs: seq<string>)
    requires ParseAll(strs).Err?
    ensures exists k :: 0 <= k < |strs| && strs[k] == ParseAll(strs).error && ParseInt(strs[k]).None?
                        && forall j :: 0 <= j < k ==> ParseInt(strs[j]).Some?
  {
    if ParseInt(strs[0]).Some? {
      var tail := strs[1..];
      ParseAllSkips(strs);
      ParseAllFailure(tail);
      var k :| 0 <= k < |tail| && tail[k] == ParseAll(tail).error && ParseInt(tail[k]).None?
               && forall j :: 0 <= j < k ==> ParseInt(tail[j]).Some?;
      assert strs[k + 1] == tail[k];
      forall j | 0 <= j < k + 1
        ensures ParseInt(strs[j]).Some?
      {
        if j > 0 {
          assert strs[j] == tail[j - 1];
        }
      }
    }
  }

  /** Past a string that parses, a failure is the tail's failure. */
  lemma ParseAllSkips(strs: seq<string>)
    requires ParseAll(strs).Err? && ParseInt(strs[0]).Some?
    ensures ParseAll(strs[1..]).Err? && ParseAll(strs[1..]).error == ParseAll(strs).error
  {
  }

  /** On success each integer is the value of the string in its place. */
  lemma {:induction false} ParseAllValues(strs: seq<string>)
    requires ParseAll(strs).Ok?
    ensures forall i :: 0 <= i < |strs| ==> ParseInt(strs[i]) == Some(ParseAll(strs).value[i])
  {
    if strs != [] {
      var n := ParseInt(strs[0]).value;
      var ns := ParseAll(strs[1..]).value;
      ParseAllValues(strs[1..]);
      assert ParseAll(strs).value == [n] + ns;
      forall i | 0 <= i < |strs|
        ensures ParseInt(strs[i]) == Some(([n] + ns)[i])
      {
        if i > 0 {
          assert strs[i] == strs[1..][i - 1];
        }
      }
    }
  }

  /** [str(n) for n in ids]. */
  function FormatAll(ids: seq<int>): (r: seq<string>)
    ensures |r| == |ids| && forall i :: 0 <= i < |ids| ==> r[i] == FromInt(ids[i])
  {
    seq(|ids|, i requires 0 <= i < |ids| => FromInt(ids[i]))
  }

  /** Ids stored as decimal strings come back as the same ids, in order. */
  lemma FormatParseAll(ids: seq<int>)
    ensures ParseAll(FormatAll(ids)) == Ok(ids)
  {
    var strs := FormatAll(ids);
    forall i | 0 <= i < |ids|
      ensures ParseInt(strs[i]) == Some(ids[i])
    {
      ParseFromInt(ids[i]);
    }
    ParseAllOk(strs, ids);
  }

  /** The converse of ParseAllValues: when every string parses, the list
      comprehension succeeds with those values. */
  lemma {:induction false} ParseAllOk(strs: seq<string>, ns: seq<int>)
    requires |strs| == |ns|
    requires forall i :: 0 <= i < |strs| ==> ParseInt(strs[i]) == Some(ns[i])
    ensures ParseAll(strs) == Ok(ns)
  {
    if strs != [] {
      assert ParseInt(strs[0]) == Some(ns[0]);
      forall i | 0 <= i < |strs| - 1
        ensures ParseInt(strs[1..][i]) == Some(ns[1..][i])
      {
        assert strs[1..][i] == strs[i + 1];
      }
      ParseAllOk(strs[1..], ns[1..]);
      assert [ns[0]] + ns[1..] == ns;
    }
  }
}
