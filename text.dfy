/**
 * Python string operations the source relies on, over `seq<char>`:
 * `str.split(c)`, `sep.join(parts)`, `str.strip()`, `str.lower()`, `str.replace(a, b)`,
 * `str(n)`, `int(s)`, the `{:,}` format and the slice `s[:n]`.
 */
module Text {
  import opened Wrappers

  predicate IsDigit(c: char) { '0' <= c <= '9' }

  predicate AllDigits(s: string) { forall i :: 0 <= i < |s| ==> IsDigit(s[i]) }

  /** The ASCII characters for which Python's `str.isspace()` holds. */
  predicate IsSpace(c: char) { c == ' ' || '\t' <= c <= '\r' || '\U{1C}' <= c <= '\U{1F}' }

  // ---------------------------------------------------------------------------
  // split and join
  // ---------------------------------------------------------------------------

  /** Python's `s.split(sep)` for a one-character separator: never empty, no piece holds `sep`. */
  function Split(s: string, sep: char): (parts: seq<string>)
    ensures |parts| >= 1
    ensures forall i :: 0 <= i < |parts| ==> sep !in parts[i]
    decreases |s|
  {
    if s == [] then [""]
    else
      var rest := Split(s[1..], sep);
      if s[0] == sep then [""] + rest
      else [[s[0]] + rest[0]] + rest[1..]
  }

  /** Python's `sep.join(parts)`. */
  function Join(parts: seq<string>, sep: string): string
  {
    if |parts| == 0 then ""
    else if |parts| == 1 then parts[0]
    else parts[0] + sep + Join(parts[1..], sep)
  }

  /** Joining one more piece appends the separator and the piece. */
  lemma {:induction false} JoinSnoc(parts: seq<string>, x: string, sep: string)
    requires |parts| >= 1
    ensures Join(parts + [x], sep) == Join(parts, sep) + sep + x
    decreases |parts|
  {
    if |parts| >= 2 {
      assert (parts + [x])[1..] == parts[1..] + [x];
      JoinSnoc(parts[1..], x, sep);
    } else {
      assert (parts + [x])[1..] == [x];
    }
  }

  /** Joining two non-empty lists of pieces: the two joins with one separator between. */
  lemma {:induction false} JoinAppend(a: seq<string>, b: seq<string>, sep: string)
    requires |a| >= 1 && |b| >= 1
    ensures Join(a + b, sep) == Join(a, sep) + sep + Join(b, sep)
    decreases |b|
  {
    var init, x := b[..|b| - 1], b[|b| - 1];
    if |b| == 1 {
      assert a + b == a + [x];
      JoinSnoc(a, x, sep);
    } else {
      assert a + b == (a + init) + [x];
      assert b == init + [x];
      JoinSnoc(a + init, x, sep);
      JoinAppend(a, init, sep);
      JoinSnoc(init, x, sep);
    }
  }

  lemma {:induction false} SplitThenJoin(s: string, sep: char)
    ensures Join(Split(s, sep), [sep]) == s
    decreases |s|
  {
    if s != [] {
      var rest := Split(s[1..], sep);
      SplitThenJoin(s[1..], sep);
      var parts := Split(s, sep);
      if s[0] == sep {
        assert parts[1..] == rest;
      } else if |rest| > 1 {
        assert parts[1..] == rest[1..];
        assert Join(rest, [sep]) == rest[0] + [sep] + Join(rest[1..], [sep]);
        assert s == [s[0]] + s[1..];
      } else {
        assert s == [s[0]] + s[1..];
      }
    }
  }

  lemma {:induction false} SplitWithoutSeparator(p: string, sep: char)
    requires sep !in p
    ensures Split(p, sep) == [p]
    decreases |p|
  {
    if p != [] {
      SplitWithoutSeparator(p[1..], sep);
      assert [p[0]] + p[1..] == p;
    }
  }

  lemma {:induction false} SplitAfterPiece(p: string, sep: char, t: string)
    requires sep !in p
    ensures Split(p + [sep] + t, sep) == [p] + Split(t, sep)
    decreases |p|
  {
    var s := p + [sep] + t;
    if p == [] {
      assert s[1..] == t;
    } else {
      assert s[1..] == p[1..] + [sep] + t;
      SplitAfterPiece(p[1..], sep, t);
      assert [p[0]] + p[1..] == p;
    }
  }

  /** Splitting a joined list gives the list back when no piece holds the separator. */
  lemma {:induction false} JoinThenSplit(parts: seq<string>, sep: char)
    requires |parts| >= 1
    requires forall i :: 0 <= i < |parts| ==> sep !in parts[i]
    ensures Split(Join(parts, [sep]), sep) == parts
    decreases |parts|
  {
    if |parts| == 1 {
      SplitWithoutSeparator(parts[0], sep);
    } else {
      JoinThenSplit(parts[1..], sep);
      SplitAfterPiece(parts[0], sep, Join(parts[1..], [sep]));
      assert [parts[0]] + parts[1..] == parts;
    }
  }

  /** A character in neither the pieces nor the separator is not in their join. */
  lemma {:induction false} JoinExcludes(parts: seq<string>, sep: string, c: char)
    requires c !in sep
    requires forall i :: 0 <= i < |parts| ==> c !in parts[i]
    ensures c !in Join(parts, sep)
    decreases |parts|
  {
    if |parts| > 1 {
      JoinExcludes(parts[1..], sep, c);
    }
  }

  // ---------------------------------------------------------------------------
  // occurrence of a piece in a text, used to state the order of sections
  // ---------------------------------------------------------------------------

  predicate OccursAt(s: string, k: int, w: string)
  {
    0 <= k && k + |w| <= |s| && s[k..k + |w|] == w
  }

  /** The pieces `ws` occur in `s` one after the other, without overlapping. */
  predicate InOrder(s: string, offsets: seq<int>, ws: seq<string>)
  {
    && |offsets| == |ws|
    && (forall i :: 0 <= i < |ws| ==> OccursAt(s, offsets[i], ws[i]))
    && (forall i :: 0 <= i < |ws| - 1 ==> offsets[i] + |ws[i]| <= offsets[i + 1])
  }

  lemma {:induction false} OccursInConcat(a: string, b: string, k: int, w: string)
    ensures OccursAt(a, k, w) ==> OccursAt(a + b, k, w)
    ensures OccursAt(b, k, w) ==> OccursAt(a + b, |a| + k, w)
  {
    if OccursAt(a, k, w) {
      assert (a + b)[k..k + |w|] == a[k..k + |w|];
    }
    if OccursAt(b, k, w) {
      assert (a + b)[|a| + k..|a| + k + |w|] == b[k..k + |w|];
    }
  }

  lemma {:induction false} OccursInPrefix(s: string, k: int, a: string, b: string)
    requires OccursAt(s, k, a + b)
    ensures OccursAt(s, k, a) && OccursAt(s, k + |a|, b)
  {
    assert s[k..k + |a|] == (a + b)[..|a|];
    assert s[k + |a|..k + |a| + |b|] == (a + b)[|a|..];
  }

  /** Where the `i`-th piece starts in `Join(parts, sep)`. */
  function JoinOffset(parts: seq<string>, sep: string, i: nat): nat
    requires i < |parts|
  {
    if i == 0 then 0 else |parts[0]| + |sep| + JoinOffset(parts[1..], sep, i - 1)
  }

  lemma {:induction false} JoinPieceAt(parts: seq<string>, sep: string, i: nat)
    requires i < |parts|
    ensures OccursAt(Join(parts, sep), JoinOffset(parts, sep, i), parts[i])
    decreases i
  {
    if |parts| > 1 {
      var head := parts[0] + sep;
      assert Join(parts, sep) == head + Join(parts[1..], sep);
      if i == 0 {
        assert Join(parts, sep) == parts[0] + (sep + Join(parts[1..], sep));
        OccursInConcat(parts[0], sep + Join(parts[1..], sep), 0, parts[0]);
      } else {
        JoinPieceAt(parts[1..], sep, i - 1);
        OccursInConcat(head, Join(parts[1..], sep), JoinOffset(parts[1..], sep, i - 1), parts[i]);
      }
    }
  }

  lemma {:induction false} JoinOffsetGrows(parts: seq<string>, sep: string, i: nat, j: nat)
    requires i < j < |parts|
    ensures JoinOffset(parts, sep, i) + |parts[i]| + |sep| <= JoinOffset(parts, sep, j)
    decreases i
  {
    if i > 0 {
      JoinOffsetGrows(parts[1..], sep, i - 1, j - 1);
    }
  }

  /** Every piece of a join occurs in it, in order. */
  lemma JoinInOrder(parts: seq<string>, sep: string)
    ensures InOrder(Join(parts, sep), seq(|parts|, i requires 0 <= i < |parts| => JoinOffset(parts, sep, i)), parts)
  {
    var offsets := seq(|parts|, i requires 0 <= i < |parts| => JoinOffset(parts, sep, i));
    forall i | 0 <= i < |parts|
      ensures OccursAt(Join(parts, sep), offsets[i], parts[i])
    {
      JoinPieceAt(parts, sep, i);
    }
    forall i | 0 <= i < |parts| - 1
      ensures offsets[i] + |parts[i]| <= offsets[i + 1]
    {
      JoinOffsetGrows(parts, sep, i, i + 1);
    }
  }

  /** `[a0, b0, a1, b1, ...]` regrouped as `[a0 + sep + b0, a1 + sep + b1, ...]`. */
  function Pairs(parts: seq<string>, sep: string): (r: seq<string>)
    requires |parts| % 2 == 0
    ensures |r| == |parts| / 2
  {
    if parts == [] then [] else [parts[0] + sep + parts[1]] + Pairs(parts[2..], sep)
  }

  lemma {:induction false} PairAt(parts: seq<string>, sep: string, k: nat)
    requires |parts| % 2 == 0 && k < |parts| / 2
    ensures Pairs(parts, sep)[k] == parts[2 * k] + sep + parts[2 * k + 1]
    decreases k
  {
    if k > 0 {
      PairAt(parts[2..], sep, k - 1);
    }
  }

  /** Joining the pieces two by two first gives the same text. */
  lemma {:induction false} JoinPairs(parts: seq<string>, sep: string)
    requires |parts| % 2 == 0
    ensures Join(parts, sep) == Join(Pairs(parts, sep), sep)
    decreases |parts|
  {
    if |parts| > 2 {
      var rest := parts[2..];
      JoinPairs(rest, sep);
      assert parts[1..][1..] == rest;
      assert Pairs(parts, sep)[1..] == Pairs(rest, sep);
      calc {
        Join(parts, sep);
        parts[0] + sep + (parts[1] + sep + Join(rest, sep));
        (parts[0] + sep + parts[1]) + sep + Join(Pairs(rest, sep), sep);
        Join(Pairs(parts, sep), sep);
      }
    }
  }

  // ---------------------------------------------------------------------------
  // strip, lower, replace
  // ---------------------------------------------------------------------------

  function TrimStart(s: string): (r: string)
    ensures |r| <= |s| && r == s[|s| - |r|..]
    ensures r == [] || !IsSpace(r[0])
    ensures forall i :: 0 <= i < |s| - |r| ==> IsSpace(s[i])
    decreases |s|
  {
    if s != [] && IsSpace(s[0]) then TrimStart(s[1..]) else s
  }

  function TrimEnd(s: string): (r: string)
    ensures |r| <= |s| && r == s[..|r|]
    ensures r == [] || !IsSpace(r[|r| - 1])
    ensures forall i :: |r| <= i < |s| ==> IsSpace(s[i])
    decreases |s|
  {
    if s != [] && IsSpace(s[|s| - 1]) then TrimEnd(s[..|s| - 1]) else s
  }

  /** Python's `s.strip()`: the longest piece of `s` that neither starts nor ends with white space. */
  function Strip(s: string): (r: string)
    ensures |r| <= |s|
    ensures r == [] || (!IsSpace(r[0]) && !IsSpace(r[|r| - 1]))
  {
    TrimEnd(TrimStart(s))
  }

  lemma StripUnpadded(s: string)
    requires s == [] || (!IsSpace(s[0]) && !IsSpace(s[|s| - 1]))
    ensures Strip(s) == s
  {
  }

  function LowerChar(c: char): char
  {
    if 'A' <= c <= 'Z' then (c as int + 32) as char else c
  }

  /** Python's `s.lower()` restricted to ASCII letters. */
  function Lower(s: string): (r: string)
    ensures |r| == |s|
    ensures forall i :: 0 <= i < |s| ==> r[i] == LowerChar(s[i])
  {
    seq(|s|, i requires 0 <= i < |s| => LowerChar(s[i]))
  }

  /** Python's `s.replace(a, b)` for single characters. */
  function ReplaceChar(s: string, a: char, b: char): (r: string)
    ensures |r| == |s|
    ensures forall i :: 0 <= i < |s| ==> r[i] == if s[i] == a then b else s[i]
  {
    seq(|s|, i requires 0 <= i < |s| => if s[i] == a then b else s[i])
  }

  // ---------------------------------------------------------------------------
  // decimal numbers
  // ---------------------------------------------------------------------------

  function DigitChar(d: nat): (c: char)
    requires d < 10
    ensures IsDigit(c)
  {
    ('0' as int + d) as char
  }

  function DigitsValue(s: string): nat
    requires AllDigits(s)
  {
    if s == [] then 0 else DigitsValue(s[..|s| - 1]) * 10 + (s[|s| - 1] as int - '0' as int)
  }

  /** Python's `str(n)` for a non-negative integer: decimal digits, no leading zero. */
  function NatToString(n: nat): (s: string)
    ensures |s| >= 1 && AllDigits(s)
    ensures s[0] == '0' ==> n == 0
  {
    if n < 10 then [DigitChar(n)] else NatToString(n / 10) + [DigitChar(n % 10)]
  }

  /** Python's `str(i)` for an integer. */
  function IntToString(i: int): string
  {
    if i < 0 then "-" + NatToString(-i) else NatToString(i)
  }

  lemma {:induction false} NatToStringValue(n: nat)
    ensures DigitsValue(NatToString(n)) == n
  {
    if n >= 10 {
      NatToStringValue(n / 10);
      var s := NatToString(n);
      assert s[..|s| - 1] == NatToString(n / 10);
    }
  }

  /** Python's `int(s)` on a string: optional surrounding white space and sign, then ASCII digits. */
  function ParseInt(s: string): Option<int>
  {
    var t := Strip(s);
    if |t| >= 2 && (t[0] == '-' || t[0] == '+') && AllDigits(t[1..]) then
      Some(if t[0] == '-' then -(DigitsValue(t[1..]) as int) else DigitsValue(t[1..]))
    else if |t| >= 1 && AllDigits(t) then Some(DigitsValue(t))
    else None
  }

  /** `int(str(i)) == i`. */
  lemma ParseIntOfIntToString(i: int)
    ensures ParseInt(IntToString(i)) == Some(i)
  {
    var n: nat := if i < 0 then -i else i;
    NatToStringValue(n);
    if i < 0 {
      assert IntToString(i)[1..] == NatToString(n);
      ParseNegative(IntToString(i));
    } else {
      ParseUnsigned(NatToString(n));
    }
  }

  /** A run of digits parses to its value. */
  lemma ParseUnsigned(d: string)
    requires |d| >= 1 && AllDigits(d)
    ensures ParseInt(d) == Some(DigitsValue(d) as int)
  {
    assert IsDigit(d[0]) && IsDigit(d[|d| - 1]);
    StripUnpadded(d);
  }

  /** A minus sign before a run of digits negates its value. */
  lemma ParseNegative(s: string)
    requires |s| >= 2 && s[0] == '-' && AllDigits(s[1..])
    ensures ParseInt(s) == Some(-(DigitsValue(s[1..]) as int))
  {
    assert s[|s| - 1] == s[1..][|s| - 2];
    StripUnpadded(s);
  }

  /** Digit grouping of the `{:,}` format: a comma before every third digit from the right. */
  function GroupDigits(d: string): (r: string)
    decreases |d|
  {
    if |d| <= 3 then d else GroupDigits(d[..|d| - 3]) + "," + d[|d| - 3..]
  }

  /** Python's `f"{i:,}"` for an integer. */
  function WithThousands(i: int): string
  {
    if i < 0 then "-" + GroupDigits(NatToString(-i)) else GroupDigits(NatToString(i))
  }

  function RemoveChar(s: string, c: char): (r: string)
    ensures c !in r
  {
    if s == [] then [] else (if s[0] == c then [] else [s[0]]) + RemoveChar(s[1..], c)
  }

  lemma {:induction false} RemoveCharConcat(a: string, b: string, c: char)
    ensures RemoveChar(a + b, c) == RemoveChar(a, c) + RemoveChar(b, c)
    decreases |a|
  {
    if a != [] {
      var head := if a[0] == c then [] else [a[0]];
      assert (a + b)[0] == a[0] && (a + b)[1..] == a[1..] + b;
      RemoveCharConcat(a[1..], b, c);
      calc {
        RemoveChar(a + b, c);
        head + RemoveChar(a[1..] + b, c);
        head + (RemoveChar(a[1..], c) + RemoveChar(b, c));
        (head + RemoveChar(a[1..], c)) + RemoveChar(b, c);
        RemoveChar(a, c) + RemoveChar(b, c);
      }
    } else {
      assert a + b == b;
    }
  }

  lemma {:induction false} RemoveAbsentChar(s: string, c: char)
    requires c !in s
    ensures RemoveChar(s, c) == s
    decreases |s|
  {
    if s != [] {
      RemoveAbsentChar(s[1..], c);
      assert [s[0]] + s[1..] == s;
    }
  }

  /** Dropping the grouping commas gives the digits back; every group after the first has three. */
  lemma {:induction false} GroupDigitsUngroups(d: string)
    requires ',' !in d
    ensures RemoveChar(GroupDigits(d), ',') == d
    decreases |d|
  {
    if |d| <= 3 {
      RemoveAbsentChar(d, ',');
    } else {
      var hi, lo := d[..|d| - 3], d[|d| - 3..];
      assert hi + lo == d;
      assert ',' !in hi && ',' !in lo;
      var g := GroupDigits(hi);
      assert GroupDigits(d) == (g + ",") + lo;
      GroupDigitsUngroups(hi);
      RemoveCharConcat(g + ",", lo, ',');
      RemoveCharConcat(g, ",", ',');
      assert RemoveChar(",", ',') == [];
      RemoveAbsentChar(lo, ',');
      assert RemoveChar(g + ",", ',') == hi;
    }
  }

  // ---------------------------------------------------------------------------
  // slices
  // ---------------------------------------------------------------------------

  /** Python's `s[:n]`: a negative `n` counts from the end. */
  function PyTake<T>(s: seq<T>, n: int): (r: seq<T>)
    ensures |r| <= |s| && r == s[..|r|]
    ensures n >= 0 ==> |r| == if n < |s| then n else |s|
    ensures n < 0 ==> |r| == if |s| + n > 0 then |s| + n else 0
  {
    if n >= 0 then (if n < |s| then s[..n] else s)
    else if |s| + n > 0 then s[..|s| + n] else []
  }
}
