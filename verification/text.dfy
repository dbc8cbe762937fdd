/** The JavaScript string operations the plugin relies on, over `string` (`seq<char>`):
    `split` on a one-character separator, `join`, `startsWith`, `includes`,
    `lastIndexOf`, `trim`, and the decimal rendering of integers. */
module Text {

  /** The last element of a non-empty sequence (`Array.prototype.pop`'s result). */
  function Last<T>(s: seq<T>): T
    requires |s| > 0
  {
    s[|s| - 1]
  }

  /** All but the last element of a non-empty sequence (what `pop` leaves behind). */
  function Init<T>(s: seq<T>): seq<T>
    requires |s| > 0
  {
    s[..|s| - 1]
  }

  /** `Last` and `Init` of a concatenation with a non-empty right part. */
  lemma LastInitAppend<T>(a: seq<T>, b: seq<T>)
    requires |b| > 0
    ensures Last(a + b) == Last(b) && Init(a + b) == a + Init(b)
  {
    assert (a + b)[..|a + b| - 1] == a + b[..|b| - 1];
  }

  /** `s.split(sep)`: the maximal runs of `s` between occurrences of `sep`; always at
      least one piece, the empty string splitting into `[""]`. */
  function Split(s: string, sep: char): (parts: seq<string>)
    ensures |parts| >= 1
    decreases |s|
  {
    if |s| == 0 then [""]
    else if s[0] == sep then [""] + Split(s[1..], sep)
    else
      var rest := Split(s[1..], sep);
      [[s[0]] + rest[0]] + rest[1..]
  }

  /** `parts.join(sep)`. */
  function Join(parts: seq<string>, sep: string): string
  {
    if |parts| == 0 then ""
    else if |parts| == 1 then parts[0]
    else parts[0] + sep + Join(parts[1..], sep)
  }

  /** With a non-empty separator, a join is empty exactly when there is nothing to
      join or only one empty piece. */
  lemma JoinEmpty(parts: seq<string>, sep: string)
    requires sep != ""
    ensures Join(parts, sep) == "" <==> |parts| == 0 || (|parts| == 1 && parts[0] == "")
  {
    if |parts| > 1 {
      assert |Join(parts, sep)| >= |sep|;
    }
  }

  /** No piece produced by `Split` contains the separator. */
  lemma {:induction false} SplitPiecesFree(s: string, sep: char)
    ensures forall i :: 0 <= i < |Split(s, sep)| ==> sep !in Split(s, sep)[i]
    decreases |s|
  {
    if |s| > 0 {
      SplitPiecesFree(s[1..], sep);
    }
  }

  /** Joining the pieces with the separator gives back the original string. */
  lemma {:induction false} SplitJoin(s: string, sep: char)
    ensures Join(Split(s, sep), [sep]) == s
    decreases |s|
  {
    if |s| > 0 {
      SplitJoin(s[1..], sep);
      var rest := Split(s[1..], sep);
      if s[0] == sep {
        assert Split(s, sep)[1..] == rest;
      } else {
        if |rest| > 1 {
          assert Split(s, sep)[1..] == rest[1..];
          assert Join(rest, [sep]) == rest[0] + [sep] + Join(rest[1..], [sep]);
        }
      }
    }
  }

  /** A string without the separator is a single piece. */
  lemma {:induction false} SplitFree(s: string, sep: char)
    requires sep !in s
    ensures Split(s, sep) == [s]
    decreases |s|
  {
    if |s| > 0 {
      SplitFree(s[1..], sep);
      assert [s[0]] + s[1..] == s;
    }
  }

  /** Splitting a concatenation: the complete pieces of `x` are kept, and the
      unfinished last piece of `x` continues into `y`. This is what makes a
      line buffer insensitive to where its input was cut. */
  lemma {:induction false} SplitAppend(x: string, y: string, sep: char)
    ensures Split(x + y, sep) == Init(Split(x, sep)) + Split(Last(Split(x, sep)) + y, sep)
    decreases |x|
  {
    if |x| == 0 {
      assert x + y == y;
    } else {
      var c := x[0];
      var x' := x[1..];
      assert x == [c] + x';
      assert x + y == [c] + (x' + y);
      SplitAppend(x', y, sep);
      SplitCons(c, x', sep);
      SplitCons(c, x' + y, sep);
      var tx := Split(x', sep);
      var tail := Split(Last(tx) + y, sep);
      if c == sep {
        PiecesAfterSeparator(tx, tail);
      } else if |tx| == 1 {
        assert [c] + tx[0] + y == [c] + (tx[0] + y);
        SplitCons(c, tx[0] + y, sep);
        PiecesContinueLast(c, tx, tail);
      } else {
        PiecesContinueFirst(c, tx, tail);
      }
    }
  }

  /** The list algebra of `SplitAppend` when the string opens with the separator. */
  lemma PiecesAfterSeparator(tx: seq<string>, tail: seq<string>)
    requires |tx| >= 1
    ensures var px := [""] + tx;
      Init(px) == [""] + Init(tx) && Last(px) == Last(tx)
      && [""] + (Init(tx) + tail) == Init(px) + tail
  {
  }

  /** The list algebra of `SplitAppend` when the first character continues the only
      piece. */
  lemma PiecesContinueLast(c: char, tx: seq<string>, tail: seq<string>)
    requires |tx| == 1 && |tail| >= 1
    ensures var px := [[c] + tx[0]] + tx[1..];
      Init(px) == [] && Last(px) == [c] + tx[0]
      && Init(tx) + tail == tail
      && [[c] + (Init(tx) + tail)[0]] + (Init(tx) + tail)[1..] == Init(px) + ([[c] + tail[0]] + tail[1..])
  {
  }

  /** The list algebra of `SplitAppend` when the first character continues a first
      piece that is followed by others. */
  lemma PiecesContinueFirst(c: char, tx: seq<string>, tail: seq<string>)
    requires |tx| >= 2
    ensures var px := [[c] + tx[0]] + tx[1..];
      var t := Init(tx) + tail;
      |px| >= 1 && Last(px) == Last(tx)
      && [[c] + t[0]] + t[1..] == Init(px) + tail
  {
    var px := [[c] + tx[0]] + tx[1..];
    var t := Init(tx) + tail;
    assert t[0] == tx[0];
    assert t[1..] == Init(tx)[1..] + tail;
    assert Init(px) == [[c] + tx[0]] + Init(tx)[1..];
  }

  /** Splitting a string that starts with `c`: a separator opens an empty piece,
      any other character joins the first piece. */
  lemma SplitCons(c: char, s: string, sep: char)
    ensures Split([c] + s, sep)
            == if c == sep then [""] + Split(s, sep)
               else [[c] + Split(s, sep)[0]] + Split(s, sep)[1..]
  {
    assert ([c] + s)[0] == c && ([c] + s)[1..] == s;
  }

  /** A string ending in the separator has an empty last piece. */
  lemma SplitEndsWithSep(x: string, sep: char)
    ensures Last(Split(x + [sep], sep)) == ""
  {
    SplitAppend(x, [sep], sep);
    var t := Last(Split(x, sep));
    SplitAppend(t, [sep], sep);
    SplitPiecesFree(x, sep);
    SplitFreeThenSep(t, sep);
  }

  lemma {:induction false} SplitFreeThenSep(t: string, sep: char)
    requires sep !in t
    ensures Split(t + [sep], sep) == [t, ""]
    decreases |t|
  {
    if |t| == 0 {
      assert t + [sep] == [sep];
    } else {
      assert (t + [sep])[1..] == t[1..] + [sep];
      SplitFreeThenSep(t[1..], sep);
      assert [t[0]] + t[1..] == t;
    }
  }

  /** `s.startsWith(p)`. */
  predicate StartsWith(s: string, p: string) {
    |p| <= |s| && s[..|p|] == p
  }

  /** `hay.includes(needle)`. */
  predicate Includes(hay: string, needle: string) {
    exists i :: 0 <= i <= |hay| - |needle| && OccursAt(hay, needle, i)
  }

  /** `needle` occurs in `hay` starting at index `i`. */
  predicate OccursAt(hay: string, needle: string, i: int) {
    0 <= i <= |hay| - |needle| && hay[i..i + |needle|] == needle
  }

  /** `s.lastIndexOf(c)`: the index of the last occurrence of `c`, or -1. */
  function LastIndexOf(s: string, c: char): (i: int)
    ensures -1 <= i < |s|
    ensures i >= 0 ==> s[i] == c
    ensures forall k :: i < k < |s| ==> s[k] != c
  {
    if |s| == 0 then -1
    else if s[|s| - 1] == c then |s| - 1
    else LastIndexOf(s[..|s| - 1], c)
  }

  /** The last `c` of `x + [c] + z` is the one after `x` when `z` has none. */
  lemma {:induction false} LastIndexOfAfter(x: string, c: char, z: string)
    requires c !in z
    ensures LastIndexOf(x + [c] + z, c) == |x|
    decreases |z|
  {
    var s := x + [c] + z;
    if |z| > 0 {
      var z' := z[..|z| - 1];
      assert s[|s| - 1] == z[|z| - 1];
      assert s[..|s| - 1] == x + [c] + z';
      LastIndexOfAfter(x, c, z');
    }
  }

  /** The last piece of `s.split(c)` is the text after the last `c` (all of `s` when
      there is none): the two ways the path helper looks at a path agree. */
  lemma LastPieceAfterLastIndex(s: string, c: char)
    ensures Last(Split(s, c)) == s[LastIndexOf(s, c) + 1..]
  {
    var i := LastIndexOf(s, c);
    var y := s[i + 1..];
    assert c !in y by {
      forall k | 0 <= k < |y| ensures y[k] != c {
        assert y[k] == s[i + 1 + k];
      }
    }
    SplitFree(y, c);
    if i < 0 {
      assert s == y;
    } else {
      var x := s[..i] + [c];
      assert s == x + y;
      SplitAppend(x, y, c);
      SplitEndsWithSep(s[..i], c);
      var px := Split(x, c);
      assert Last(px) + y == y;
      assert Split(s, c) == Init(px) + [y];
      LastInitAppend(Init(px), [y]);
    }
  }

  /** The characters `String.prototype.trim` removes: ECMAScript WhiteSpace (tab,
      vertical tab, form feed, no-break space, byte-order mark and the Unicode
      space separators) and LineTerminator (LF, CR, U+2028, U+2029). */
  predicate IsJsSpace(c: char) {
    var n := c as int;
    || (0x09 <= n <= 0x0D) || n == 0x20 || n == 0xA0 || n == 0x1680
    || (0x2000 <= n <= 0x200A) || n == 0x2028 || n == 0x2029 || n == 0x202F
    || n == 0x205F || n == 0x3000 || n == 0xFEFF
  }

  /** `s` with its leading white space removed. */
  function TrimStart(s: string): (r: string)
    ensures |r| <= |s| && r == s[|s| - |r|..]
    ensures forall k :: 0 <= k < |s| - |r| ==> IsJsSpace(s[k])
    ensures r == "" || !IsJsSpace(r[0])
  {
    if |s| > 0 && IsJsSpace(s[0]) then TrimStart(s[1..]) else s
  }

  /** `s` with its trailing white space removed. */
  function TrimEnd(s: string): (r: string)
    ensures |r| <= |s| && r == s[..|r|]
    ensures forall k :: |r| <= k < |s| ==> IsJsSpace(s[k])
    ensures r == "" || !IsJsSpace(r[|r| - 1])
  {
    if |s| > 0 && IsJsSpace(s[|s| - 1]) then TrimEnd(s[..|s| - 1]) else s
  }

  /** `s.trim()`: the slice of `s` left after removing white space at both ends;
      everything removed is white space and the result neither starts nor ends with it. */
  function Trim(s: string): (r: string)
    ensures exists i :: TrimmedAt(s, r, i)
    ensures r == "" || (!IsJsSpace(r[0]) && !IsJsSpace(r[|r| - 1]))
  {
    var t := TrimStart(s);
    var r := TrimEnd(t);
    var i := |s| - |t|;
    assert TrimmedAt(s, r, i);
    r
  }

  /** `r` is the slice of `s` starting at `i`, and everything of `s` outside that
      slice is white space. */
  ghost predicate TrimmedAt(s: string, r: string, i: int) {
    && 0 <= i <= |s| - |r|
    && r == s[i..i + |r|]
    && (forall k :: 0 <= k < i ==> IsJsSpace(s[k]))
    && (forall k :: i + |r| <= k < |s| ==> IsJsSpace(s[k]))
  }

  /** Trimming a string with no white space at either end leaves it unchanged. */
  lemma TrimNoop(s: string)
    requires s == "" || (!IsJsSpace(s[0]) && !IsJsSpace(s[|s| - 1]))
    ensures Trim(s) == s
  {
  }

  /** The decimal digit character for `d`. */
  function DigitChar(d: nat): char
    requires d < 10
  {
    (('0' as int) + d) as char
  }

  predicate IsDigit(c: char) {
    '0' <= c <= '9'
  }

  /** The value of a decimal digit character. */
  function DigitValue(c: char): nat
    requires IsDigit(c)
  {
    (c as int) - ('0' as int)
  }

  /** `String(n)` for a non-negative integer: its decimal digits, without leading zeros. */
  function NatToString(n: nat): (s: string)
    ensures |s| >= 1
    ensures forall k :: 0 <= k < |s| ==> IsDigit(s[k])
    ensures |s| > 1 ==> s[0] != '0'
  {
    if n < 10 then [DigitChar(n)] else NatToString(n / 10) + [DigitChar(n % 10)]
  }

  /** `String(i)` for an integer: a minus sign before the digits of a negative number. */
  function IntToString(i: int): (s: string)
    ensures |s| >= 1
    ensures '/' !in s
  {
    if i < 0 then "-" + NatToString(-i) else NatToString(i)
  }

  /** The value of a string of decimal digits. */
  function ParseNat(s: string): nat
    requires forall k :: 0 <= k < |s| ==> IsDigit(s[k])
  {
    if |s| == 0 then 0 else 10 * ParseNat(s[..|s| - 1]) + DigitValue(s[|s| - 1])
  }

  lemma DigitRoundTrip(d: nat)
    requires d < 10
    ensures IsDigit(DigitChar(d)) && DigitValue(DigitChar(d)) == d
  {
  }

  /** Reading back the decimal rendering of `n` gives `n`. */
  lemma {:induction false} NatToStringRoundTrip(n: nat)
    ensures ParseNat(NatToString(n)) == n
  {
    if n < 10 {
      DigitRoundTrip(n);
    } else {
      NatToStringRoundTrip(n / 10);
      var s := NatToString(n);
      DigitRoundTrip(n % 10);
      assert s[..|s| - 1] == NatToString(n / 10);
    }
  }

  /** The integer a rendering denotes: an optional minus sign, then digits. */
  function ParseInt(s: string): int
    requires |s| >= 1
    requires s[0] == '-' ==> forall k :: 1 <= k < |s| ==> IsDigit(s[k])
    requires s[0] != '-' ==> forall k :: 0 <= k < |s| ==> IsDigit(s[k])
  {
    if s[0] == '-' then 0 - ParseNat(s[1..]) else ParseNat(s)
  }

  /** Reading back the decimal rendering of `i` gives `i`. */
  lemma IntToStringRoundTrip(i: int)
    ensures var s := IntToString(i);
      && (s[0] == '-' ==> forall k :: 1 <= k < |s| ==> IsDigit(s[k]))
      && (s[0] != '-' ==> forall k :: 0 <= k < |s| ==> IsDigit(s[k]))
      && ParseInt(s) == i
  {
    var s := IntToString(i);
    if i < 0 {
      NatToStringRoundTrip(-i);
      assert s[1..] == NatToString(-i);
    } else {
      NatToStringRoundTrip(i);
    }
  }
}
