/** The note filing path: a note moves into a `YYYY/MM` folder next to where it is,
    the year and month being those of the clock when it is processed. */
module Paths {
  import Text

  /** `s.padStart(n, c)`. */
  function PadStart(s: string, n: nat, c: char): (r: string)
    ensures |r| == if |s| >= n then |s| else n
    ensures r[|r| - |s|..] == s
    ensures forall i :: 0 <= i < |r| - |s| ==> r[i] == c
  {
    if |s| >= n then s else [c] + PadStart(s, n - 1, c)
  }

  /** `getCurrentYearMonth` for the given year and 1-based month: the year's
      rendering, a slash, and two digits that read back as the month. */
  function YearMonth(year: int, month: int): (r: string)
    requires 1 <= month <= 12
    ensures var y := Text.IntToString(year);
      && |r| == |y| + 3 && r[..|y|] == y && r[|y|] == '/'
      && (forall k :: |y| + 1 <= k < |r| ==> Text.IsDigit(r[k]))
      && Text.ParseNat(r[|y| + 1..]) == month
  {
    MonthTwoDigits(month);
    var y := Text.IntToString(year);
    var mm := PadStart(Text.IntToString(month), 2, '0');
    assert (y + "/" + mm)[..|y|] == y;
    assert (y + "/" + mm)[|y| + 1..] == mm;
    y + "/" + mm
  }

  /** The month written with two digits, zero-padded on the left. */
  lemma MonthTwoDigits(month: int)
    requires 1 <= month <= 12
    ensures var mm := PadStart(Text.IntToString(month), 2, '0');
      && |mm| == 2 && (forall k :: 0 <= k < |mm| ==> Text.IsDigit(mm[k]))
      && Text.ParseNat(mm) == month
      && (month < 10 <==> mm[0] == '0')
  {
    MonthDigits(month);
    TwoDigitsValue(Tens(month), Units(month));
  }

  /** The tens and units digits of a month. */
  function Tens(month: int): nat
    requires 1 <= month <= 12
  {
    if month < 10 then 0 else 1
  }

  function Units(month: int): nat
    requires 1 <= month <= 12
  {
    if month < 10 then month else month - 10
  }

  /** The padded month is its tens digit followed by its units digit. */
  lemma MonthDigits(month: int)
    requires 1 <= month <= 12
    ensures PadStart(Text.IntToString(month), 2, '0') == [Text.DigitChar(Tens(month)), Text.DigitChar(Units(month))]
    ensures Tens(month) < 10 && Units(month) < 10 && 10 * Tens(month) + Units(month) == month
  {
    OneDigitMonth(month);
    TwoDigitMonth(month);
  }

  /** A month before October is padded with a leading zero. */
  lemma OneDigitMonth(m: int)
    requires 1 <= m <= 12
    ensures m < 10 ==> PadStart(Text.IntToString(m), 2, '0') == [Text.DigitChar(0), Text.DigitChar(m)]
  {
    if m < 10 {
      var d := Text.IntToString(m);
      assert d == [Text.DigitChar(m)];
      assert PadStart(d, 1, '0') == d;
    }
  }

  /** October to December already have two digits. */
  lemma TwoDigitMonth(m: int)
    requires 1 <= m <= 12
    ensures m >= 10 ==> PadStart(Text.IntToString(m), 2, '0') == [Text.DigitChar(1), Text.DigitChar(m - 10)]
  {
    if m >= 10 {
      assert m / 10 == 1 && m % 10 == m - 10;
      assert Text.NatToString(1) == [Text.DigitChar(1)];
      assert Text.IntToString(m) == Text.NatToString(1) + [Text.DigitChar(m - 10)];
    }
  }

  /** Two digit characters denote ten times the first digit plus the second. */
  lemma TwoDigitsValue(a: nat, b: nat)
    requires a < 10 && b < 10
    ensures var s := [Text.DigitChar(a), Text.DigitChar(b)];
      && Text.IsDigit(s[0]) && Text.IsDigit(s[1])
      && Text.ParseNat(s) == 10 * a + b
      && (s[0] == '0' <==> a == 0)
  {
    var s := [Text.DigitChar(a), Text.DigitChar(b)];
    Text.DigitRoundTrip(a);
    Text.DigitRoundTrip(b);
    assert s[..1] == [Text.DigitChar(a)];
    assert s[..1][..0] == [];
    assert Text.ParseNat(s[..1]) == a;
    assert Text.ParseNat(s) == 10 * Text.ParseNat(s[..1]) + Text.DigitValue(s[1]);
  }

  /** The year and the month can be read back from the folder name: it is the year,
      a slash, and the two-digit month. */
  lemma YearMonthReadBack(year: int, month: int)
    requires 1 <= month <= 12
    ensures var r := YearMonth(year, month);
      var i := Text.LastIndexOf(r, '/');
      && 0 <= i && |r| == i + 3
      && r[..i] == Text.IntToString(year)
      && r[i + 1..] == PadStart(Text.IntToString(month), 2, '0')
  {
    NoSlashInMonth(month);
    SplitAtLastSlash(Text.IntToString(year), PadStart(Text.IntToString(month), 2, '0'));
  }

  /** A slash followed by slash-free text is the last slash. */
  lemma SplitAtLastSlash(y: string, mm: string)
    requires '/' !in mm
    ensures var r := y + "/" + mm;
      && Text.LastIndexOf(r, '/') == |y|
      && r[..|y|] == y && r[|y| + 1..] == mm
  {
    assert y + "/" + mm == y + ['/'] + mm;
    Text.LastIndexOfAfter(y, '/', mm);
  }

  lemma NoSlashInMonth(month: int)
    requires 1 <= month <= 12
    ensures var mm := PadStart(Text.IntToString(month), 2, '0');
      |mm| == 2 && '/' !in mm
  {
    MonthDigits(month);
    Text.DigitRoundTrip(Tens(month));
    Text.DigitRoundTrip(Units(month));
  }

  /** The file name: the text after the last `/`, or the whole path when that text
      is empty. */
  function FileName(path: string): (r: string)
    ensures Text.Last(Text.Split(path, '/')) != "" ==> r == path[Text.LastIndexOf(path, '/') + 1..]
    ensures Text.Last(Text.Split(path, '/')) == "" ==> r == path
  {
    Text.LastPieceAfterLastIndex(path, '/');
    var last := Text.Last(Text.Split(path, '/'));
    if last != "" then last else path
  }

  /** The parent directory: the text before the last `/`, and `""` when there is
      none (`substring(0, -1)` is the empty string). */
  function ParentDir(path: string): (r: string)
    ensures Text.LastIndexOf(path, '/') >= 0 ==> r == path[..Text.LastIndexOf(path, '/')]
    ensures Text.LastIndexOf(path, '/') < 0 ==> r == ""
  {
    var i := Text.LastIndexOf(path, '/');
    if i < 0 then "" else path[..i]
  }

  /** `getTargetPath`, with the folder name supplied: the note keeps its file name and
      moves into the folder, which sits under the note's parent directory when it has
      one and at the top of the vault otherwise. */
  function TargetPath(path: string, yearMonth: string): (r: string)
    ensures var tail := yearMonth + "/" + FileName(path);
      && |r| >= |tail| && r[|r| - |tail|..] == tail
      && (ParentDir(path) == "" ==> r == tail)
      && (ParentDir(path) != "" ==> r[..|r| - |tail|] == ParentDir(path) + "/")
    ensures |r| > |FileName(path)| && r[|r| - |FileName(path)| - 1..] == "/" + FileName(path)
  {
    Place(ParentDir(path), yearMonth, FileName(path))
  }

  /** The file name under the folder, under the parent directory when there is one. */
  function Place(parentDir: string, yearMonth: string, fileName: string): (r: string)
    ensures var tail := yearMonth + "/" + fileName;
      && |r| >= |tail| && r[|r| - |tail|..] == tail
      && (parentDir == "" ==> r == tail)
      && (parentDir != "" ==> r[..|r| - |tail|] == parentDir + "/")
    ensures |r| > |fileName| && r[|r| - |fileName| - 1..] == "/" + fileName
  {
    if parentDir == "" then
      assert yearMonth + "/" + fileName == yearMonth + ("/" + fileName);
      yearMonth + "/" + fileName
    else
      assert parentDir + "/" + yearMonth + "/" + fileName == (parentDir + "/") + (yearMonth + "/" + fileName);
      assert parentDir + "/" + yearMonth + "/" + fileName == (parentDir + "/" + yearMonth) + ("/" + fileName);
      parentDir + "/" + yearMonth + "/" + fileName
  }

  /** A path with no `/` after its first character is filed at the top of the vault;
      any other path is filed under its parent directory. */
  lemma TargetPathShape(path: string, yearMonth: string)
    ensures (forall k :: 0 < k < |path| ==> path[k] != '/') ==>
      TargetPath(path, yearMonth) == yearMonth + "/" + FileName(path)
    ensures (exists k :: 0 < k < |path| && path[k] == '/') ==>
      TargetPath(path, yearMonth)
        == path[..Text.LastIndexOf(path, '/')] + "/" + yearMonth + "/" + FileName(path)
  {
    var i := Text.LastIndexOf(path, '/');
    if exists k :: 0 < k < |path| && path[k] == '/' {
      var k :| 0 < k < |path| && path[k] == '/';
      assert i >= k;
      assert ParentDir(path) == path[..i];
      assert |ParentDir(path)| > 0;
    } else {
      assert i <= 0;
      assert ParentDir(path) == "";
    }
  }

  /** The result is strictly longer than the path whenever the folder name is not
      empty, so a note is never already where it is to be filed. */
  lemma TargetPathLonger(path: string, yearMonth: string)
    requires yearMonth != ""
    ensures |TargetPath(path, yearMonth)| > |path|
    ensures TargetPath(path, yearMonth) != path
  {
    var i := Text.LastIndexOf(path, '/');
    Text.LastPieceAfterLastIndex(path, '/');
    assert |FileName(path)| >= |path| - i - 1;
  }

  /** The "already in target location" branch of note processing is dead for every
      path and every clock reading. */
  lemma AlreadyFiledUnreachable(path: string, year: int, month: int)
    requires 1 <= month <= 12
    ensures TargetPath(path, YearMonth(year, month)) != path
  {
    TargetPathLonger(path, YearMonth(year, month));
  }
}
