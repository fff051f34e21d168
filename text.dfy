/** Character classes and the string operations of Python's str that the
    modelled code relies on: strip, split on a single-character delimiter,
    splitlines. */
module Text {

  /** Python's str.isspace(), which is also what `\s` and str.strip()
      treat as whitespace. */
  predicate IsSpace(c: char)
  {
    c == ' ' || '\t' <= c <= '\r' || '\U{1c}' <= c <= '\U{1f}' || c == '\U{85}' || c == '\U{a0}'
    || c == '\U{1680}' || '\U{2000}' <= c <= '\U{200a}' || c == '\U{2028}' || c == '\U{2029}'
    || c == '\U{202f}' || c == '\U{205f}' || c == '\U{3000}'
  }

  /** The regular-expression class `\d`, restricted to ASCII digits. */
  predicate IsDigit(c: char)
  {
    '0' <= c <= '9'
  }

  predicate IsUpper(c: char)
  {
    'A' <= c <= 'Z'
  }

  predicate IsLetter(c: char)
  {
    IsUpper(c) || 'a' <= c <= 'z'
  }

  /** The regular-expression class `\w`: letters, digits and the underscore.
      Every character outside ASCII that is not whitespace is counted as a
      letter. */
  predicate IsWord(c: char)
  {
    IsLetter(c) || IsDigit(c) || c == '_' || ('\U{80}' <= c && !IsSpace(c))
  }

  /** str.lower() on one character (ASCII case mapping). */
  function Lower(c: char): (r: char)
    ensures !IsUpper(r)
    ensures IsUpper(c) ==> IsLetter(r) && r != c
    ensures !IsUpper(c) ==> r == c
  {
    if IsUpper(c) then (c as int + 32) as char else c
  }

  /** The characters at which str.splitlines() breaks a line. */
  const LineBreaks: set<char> :=
    {'\n', '\r', '\U{b}', '\U{c}', '\U{1c}', '\U{1d}', '\U{1e}', '\U{85}', '\U{2028}', '\U{2029}'}

  lemma LineBreaksAreSpaces()
    ensures forall c :: c in LineBreaks ==> IsSpace(c)
  {
  }

  /** str.lstrip(): drops the leading whitespace. */
  function StripStart(s: string): (r: string)
    ensures |r| <= |s| && r == s[|s| - |r|..]
    ensures r == [] || !IsSpace(r[0])
  {
    if s != [] && IsSpace(s[0]) then StripStart(s[1..]) else s
  }

  /** str.rstrip(): drops the trailing whitespace. */
  function StripEnd(s: string): (r: string)
    ensures |r| <= |s| && r == s[..|r|]
    ensures r == [] || !IsSpace(r[|r| - 1])
  {
    if s != [] && IsSpace(s[|s| - 1]) then StripEnd(s[..|s| - 1]) else s
  }

  /** lstrip drops only whitespace. */
  lemma {:induction false} StripStartDropsSpaces(s: string)
    ensures forall i :: 0 <= i < |s| - |StripStart(s)| ==> IsSpace(s[i])
  {
    if s != [] && IsSpace(s[0]) {
      StripStartDropsSpaces(s[1..]);
      forall i | 1 <= i < |s| - |StripStart(s)|
        ensures IsSpace(s[i])
      {
        assert s[i] == s[1..][i - 1];
      }
    }
  }

  /** rstrip drops only whitespace. */
  lemma {:induction false} StripEndDropsSpaces(s: string)
    ensures forall i :: |StripEnd(s)| <= i < |s| ==> IsSpace(s[i])
  {
    if s != [] && IsSpace(s[|s| - 1]) {
      StripEndDropsSpaces(s[..|s| - 1]);
      forall i | |StripEnd(s)| <= i < |s| - 1
        ensures IsSpace(s[i])
      {
        assert s[i] == s[..|s| - 1][i];
      }
    }
  }

  /** str.strip(). */
  function Strip(s: string): (r: string)
    ensures |r| <= |s| && Trimmed(r)
  {
    var t := StripStart(s);
    var r := StripEnd(t);
    assert r != [] ==> r[0] == t[0];
    r
  }

  /** Neither end of s is whitespace. */
  predicate Trimmed(s: string)
  {
    s == [] || (!IsSpace(s[0]) && !IsSpace(s[|s| - 1]))
  }

  /** Strip keeps a contiguous slice of its input, drops only whitespace
      around it, and leaves no whitespace at either end. */
  lemma StripSlice(s: string)
    ensures Trimmed(Strip(s))
    ensures var r, lo := Strip(s), |s| - |StripStart(s)|;
      lo + |r| <= |s| && r == s[lo..lo + |r|]
      && (forall i :: 0 <= i < lo ==> IsSpace(s[i]))
      && (forall i :: lo + |r| <= i < |s| ==> IsSpace(s[i]))
  {
    StripIsTrimmed(s);
    StripKeepsSlice(s);
    StripStartDropsSpaces(s);
  }

  lemma StripIsTrimmed(s: string)
    ensures Trimmed(Strip(s))
  {
    var t := StripStart(s);
    var r := StripEnd(t);
    if r != [] {
      assert r[0] == t[0];
    }
  }

  lemma StripKeepsSlice(s: string)
    ensures var r, lo := Strip(s), |s| - |StripStart(s)|;
      lo + |r| <= |s| && r == s[lo..lo + |r|]
      && (forall i :: lo + |r| <= i < |s| ==> IsSpace(s[i]))
  {
    var t := StripStart(s);
    var r := StripEnd(t);
    var lo := |s| - |t|;
    StripIsSlice(s);
    assert t == s[lo..];
    StripEndDropsSpaces(t);
    TrailingSpaces(s, t, r, lo);
  }

  /** Strip keeps a contiguous slice of its input. */
  lemma StripIsSlice(s: string)
    ensures var r, lo := Strip(s), |s| - |StripStart(s)|;
      lo + |r| <= |s| && r == s[lo..lo + |r|]
  {
    var t := StripStart(s);
    assert Strip(s) == StripEnd(t);
    PrefixOfSuffix(s, t, StripEnd(t));
  }

  /** A prefix of a suffix is a slice. */
  lemma PrefixOfSuffix<T>(s: seq<T>, t: seq<T>, r: seq<T>)
    requires |t| <= |s| && t == s[|s| - |t|..] && |r| <= |t| && r == t[..|r|]
    ensures r == s[|s| - |t|..|s| - |t| + |r|]
  {
  }

  lemma TrailingSpaces(s: string, t: string, r: string, lo: nat)
    requires lo <= |s| && t == s[lo..] && |r| <= |t|
    requires forall j :: |r| <= j < |t| ==> IsSpace(t[j])
    ensures forall i :: lo + |r| <= i < |s| ==> IsSpace(s[i])
  {
    forall i | lo + |r| <= i < |s|
      ensures IsSpace(s[i])
    {
      assert s[i] == t[i - lo];
    }
  }

  /** Strip brings in no new character. */
  lemma StripChars(s: string)
    ensures forall c :: c in Strip(s) ==> c in s
  {
    StripKeepsSlice(s);
    var lo := |s| - |StripStart(s)|;
    SliceChars(s, lo, lo + |Strip(s)|);
  }

  lemma SliceChars(s: string, lo: nat, hi: nat)
    requires lo <= hi <= |s|
    ensures forall c :: c in s[lo..hi] ==> c in s
  {
    forall c | c in s[lo..hi]
      ensures c in s
    {
      var k :| 0 <= k < hi - lo && s[lo..hi][k] == c;
      assert s[lo + k] == c;
    }
  }

  /** A string with no whitespace at either end is its own strip. */
  lemma {:induction false} StripTrimmed(s: string)
    requires Trimmed(s)
    ensures Strip(s) == s
  {
  }

  /** Stripping twice strips no more than stripping once. */
  lemma StripIdempotent(s: string)
    ensures Strip(Strip(s)) == Strip(s)
  {
    StripSlice(s);
    StripTrimmed(Strip(s));
  }

  /** lstrip stops inside a when a ends in a non-space character, so
      whatever follows a is kept. */
  lemma {:induction false} StripStartAppend(a: string, b: string)
    requires a != [] && !IsSpace(a[|a| - 1])
    ensures StripStart(a + b) == StripStart(a) + b
    ensures StripStart(a) != [] && StripStart(a)[|StripStart(a)| - 1] == a[|a| - 1]
  {
    if IsSpace(a[0]) {
      assert (a + b)[1..] == a[1..] + b;
      StripStartAppend(a[1..], b);
    }
  }

  /** lstrip of text ending in a non-space character keeps that last
      character, and is shorter when there was leading whitespace. */
  lemma {:induction false} StripStartKeepsLast(a: string)
    requires a != [] && !IsSpace(a[|a| - 1])
    ensures StripStart(a) != [] && StripStart(a)[|StripStart(a)| - 1] == a[|a| - 1]
    ensures IsSpace(a[0]) ==> |StripStart(a)| < |a|
  {
    if IsSpace(a[0]) {
      StripStartKeepsLast(a[1..]);
    }
  }

  /** lstrip removes a whole leading run of whitespace and stops at the
      first character after it. */
  lemma {:induction false} StripStartRun(w: string, b: string)
    requires forall i :: 0 <= i < |w| ==> IsSpace(w[i])
    requires b == [] || !IsSpace(b[0])
    ensures StripStart(w + b) == b
  {
    if w == [] {
      assert w + b == b;
    } else {
      assert (w + b)[1..] == w[1..] + b;
      StripStartRun(w[1..], b);
    }
  }

  /** rstrip stops inside b when b starts with a non-space character, so
      whatever comes before b is kept. */
  lemma {:induction false} StripEndPrepend(a: string, b: string)
    requires b != [] && !IsSpace(b[0])
    ensures StripEnd(a + b) == a + StripEnd(b)
    ensures StripEnd(b) != [] && StripEnd(b)[0] == b[0]
  {
    if IsSpace(b[|b| - 1]) {
      assert (a + b)[..|a + b| - 1] == a + b[..|b| - 1];
      StripEndPrepend(a, b[..|b| - 1]);
    }
  }

  /** Stripping "x y", where x ends and y starts with a non-space
      character, strips x and y on their own and keeps the space. */
  lemma StripJoin(x: string, y: string)
    requires x != [] && !IsSpace(x[|x| - 1])
    requires y != [] && !IsSpace(y[0])
    ensures Strip(x + [' '] + y) == Strip(x) + [' '] + Strip(y)
  {
    var sx := StripStart(x);
    calc {
      Strip(x + [' '] + y);
      StripEnd(StripStart(x + [' '] + y));
      { assert x + [' '] + y == x + ([' '] + y); StripStartAppend(x, [' '] + y); }
      StripEnd(sx + ([' '] + y));
      { assert sx + ([' '] + y) == (sx + [' ']) + y; StripEndPrepend(sx + [' '], y); }
      sx + [' '] + StripEnd(y);
      { StripStartAppend(x, []); StripEndKeeps(sx); StripStartKeeps(y); }
      Strip(x) + [' '] + Strip(y);
    }
  }

  lemma StripEndKeeps(s: string)
    requires s != [] && !IsSpace(s[|s| - 1])
    ensures StripEnd(s) == s
  {
  }

  lemma StripStartKeeps(s: string)
    requires s != [] && !IsSpace(s[0])
    ensures StripStart(s) == s
  {
  }


  /** The delimiters of s, in order: the characters of s that are in seps. */
  function Separators(s: string, seps: set<char>): (r: string)
    ensures |r| <= |s|
    ensures forall c :: c in r ==> c in seps && c in s
  {
    if s == [] then []
    else if s[0] in seps then [s[0]] + Separators(s[1..], seps)
    else Separators(s[1..], seps)
  }

  /** str.split(sep) for a one-character delimiter, generalised to a set
      of delimiter characters (str.splitlines() is the case of the line
      breaks): the pieces between consecutive delimiters, empty pieces
      included. */
  function SplitOn(s: string, seps: set<char>): (r: seq<string>)
    ensures |r| == |Separators(s, seps)| + 1
    ensures forall p, c :: p in r && c in p ==> c !in seps
  {
    if s == [] then [[]]
    else
      var rest := SplitOn(s[1..], seps);
      if s[0] in seps then [[]] + rest
      else [[s[0]] + rest[0]] + rest[1..]
  }

  /** Puts the pieces back together with the delimiters between them. */
  function Rejoin(pieces: seq<string>, delims: string): (r: string)
    requires |pieces| == |delims| + 1
  {
    if delims == [] then pieces[0]
    else pieces[0] + [delims[0]] + Rejoin(pieces[1..], delims[1..])
  }

  /** Splitting loses nothing: the pieces and the delimiters give back the
      original string. */
  lemma {:induction false} SplitOnRejoin(s: string, seps: set<char>)
    ensures Rejoin(SplitOn(s, seps), Separators(s, seps)) == s
  {
    if s != [] {
      SplitOnRejoin(s[1..], seps);
      var rest := SplitOn(s[1..], seps);
      var ds := Separators(s[1..], seps);
      assert s == [s[0]] + s[1..];
      if s[0] in seps {
        RejoinAfterDelimiter(s[0], rest, ds);
      } else {
        assert rest == [rest[0]] + rest[1..];
        RejoinExtendFirst(s[0], rest[0], rest[1..], ds);
      }
    }
  }

  /** Rejoining a first piece and the rest. */
  lemma RejoinCons(first: string, more: seq<string>, ds: string)
    requires |more| == |ds|
    ensures Rejoin([first] + more, ds) == if ds == [] then first else first + ([ds[0]] + Rejoin(more, ds[1..]))
  {
    assert ([first] + more)[1..] == more;
    if ds != [] {
      var r := Rejoin(more, ds[1..]);
      assert first + [ds[0]] + r == first + ([ds[0]] + r);
    }
  }

  /** A delimiter in front adds an empty first piece. */
  lemma RejoinAfterDelimiter(c: char, rest: seq<string>, ds: string)
    requires |rest| == |ds| + 1
    ensures Rejoin([[]] + rest, [c] + ds) == [c] + Rejoin(rest, ds)
  {
    RejoinCons([], rest, [c] + ds);
    assert ([c] + ds)[1..] == ds;
  }

  /** Any other character in front extends the first piece. */
  lemma RejoinExtendFirst(c: char, first: string, more: seq<string>, ds: string)
    requires |more| == |ds|
    ensures Rejoin([[c] + first] + more, ds) == [c] + Rejoin([first] + more, ds)
  {
    RejoinCons([c] + first, more, ds);
    RejoinCons(first, more, ds);
    if ds != [] {
      PrependAssoc(c, first, [ds[0]] + Rejoin(more, ds[1..]));
    }
  }

  lemma PrependAssoc(c: char, a: string, b: string)
    ensures ([c] + a) + b == [c] + (a + b)
  {
  }

  /** [p.strip() for p in pieces if p.strip()]. */
  function TrimmedNonBlank(pieces: seq<string>): (r: seq<string>)
    ensures |r| <= |pieces|
    ensures forall e :: e in r ==> e != [] && Trimmed(e)
    ensures forall e :: e in r ==> exists p :: p in pieces && Strip(p) == e
  {
    if pieces == [] then []
    else
      var rest := TrimmedNonBlank(pieces[1..]);
      StripSlice(pieces[0]);
      if Strip(pieces[0]) != [] then [Strip(pieces[0])] + rest else rest
  }

  /** The pieces that are only whitespace are exactly the ones dropped. */
  lemma {:induction false} TrimmedNonBlankCount(pieces: seq<string>)
    requires forall p :: p in pieces ==> Strip(p) != []
    ensures |TrimmedNonBlank(pieces)| == |pieces|
    ensures forall i :: 0 <= i < |pieces| ==> TrimmedNonBlank(pieces)[i] == Strip(pieces[i])
  {
    if pieces != [] {
      assert pieces[0] in pieces;
      forall p | p in pieces[1..]
        ensures Strip(p) != []
      {
        assert p in pieces;
      }
      TrimmedNonBlankCount(pieces[1..]);
      var rest := TrimmedNonBlank(pieces[1..]);
      assert TrimmedNonBlank(pieces) == [Strip(pieces[0])] + rest;
    }
  }

  /** Trimming and dropping pieces brings in no new character. */
  lemma {:induction false} TrimmedNonBlankChars(pieces: seq<string>, allowed: set<char>)
    requires forall p, c :: p in pieces && c in p ==> c in allowed
    ensures forall e, c :: e in TrimmedNonBlank(pieces) && c in e ==> c in allowed
  {
    if pieces != [] {
      forall q, c | q in pieces[1..] && c in q
        ensures c in allowed
      {
        assert q in pieces;
      }
      TrimmedNonBlankChars(pieces[1..], allowed);
      var rest := TrimmedNonBlank(pieces[1..]);
      var e := Strip(pieces[0]);
      assert pieces[0] in pieces;
      StripChars(pieces[0]);
      assert TrimmedNonBlank(pieces) == if e != [] then [e] + rest else rest;
      ConsAllowed(e, rest, allowed);
    }
  }

  lemma ConsAllowed(e: string, rest: seq<string>, allowed: set<char>)
    requires forall c :: c in e ==> c in allowed
    requires forall x, c :: x in rest && c in x ==> c in allowed
    ensures forall x, c :: x in (if e != [] then [e] + rest else rest) && c in x ==> c in allowed
  {
  }

  /** Every character of every piece of a split comes from the string. */
  lemma {:induction false} PiecesFromString(s: string, seps: set<char>)
    ensures forall p, c :: p in SplitOn(s, seps) && c in p ==> c in s
  {
    if s != [] {
      PiecesFromString(s[1..], seps);
    }
  }

  /** The trimmed non-blank pieces of a split hold only characters of the
      string that are not delimiters. */
  lemma TrimmedPiecesChars(s: string, seps: set<char>)
    ensures forall e, c :: e in TrimmedNonBlank(SplitOn(s, seps)) && c in e ==> c !in seps && c in s
  {
    var pieces := SplitOn(s, seps);
    PiecesFromString(s, seps);
    var allowed := set c | c in s && c !in seps;
    assert forall p, c :: p in pieces && c in p ==> c in allowed;
    TrimmedNonBlankChars(pieces, allowed);
  }
}
