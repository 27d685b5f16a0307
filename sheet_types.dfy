/** Spreadsheet cell addressing (src/apps/sheets/types.ts): column letters
    A..Z then AA..ZZ, cell keys made of the column letters and the 1-based
    row number, and the default column definition. */
module SheetTypes {
  import opened Shared
  import opened Strings

  /** The column types a column definition can declare. */
  datatype ColumnType =
    | Text | Number | Currency | Percent | Date | DateTime | Checkbox
    | SingleSelect | MultiSelect | Url | Email | Rating

  datatype SelectOption = SelectOption(id: string, caption: string, color: Option<string>)

  /** A column definition; the optional keys are `None` when absent. */
  datatype ColumnDef = ColumnDef(
    id: string, name: string, kind: ColumnType, width: Option<int>,
    options: Option<seq<SelectOption>>, numberFormat: Option<string>, currencyCode: Option<string>,
    dateFormat: Option<string>, timeFormat: Option<string>, maxRating: Option<int>)

  const DefaultColumnWidth := 120

  /** `COL_LETTERS`: the alphabet split into letters. */
  const ColLetters: string := "ABCDEFGHIJKLMNOPQRSTUVWXYZ"

  predicate IsLetter(c: char) {
    'A' <= c <= 'Z'
  }

  predicate AllLetters(s: string) {
    forall k :: 0 <= k < |s| ==> IsLetter(s[k])
  }

  /** The alphabet holds the 26 capital letters, in order. */
  lemma ColLettersInOrder()
    ensures |ColLetters| == 26
    ensures forall k :: 0 <= k < 26 ==> ColLetters[k] as int == 'A' as int + k
  {
  }

  /** The position of a capital letter in the alphabet. */
  function LetterIndex(c: char): int {
    c as int - 'A' as int
  }

  /** `getColumnLetter`: one letter for the first 26 columns, then two
      letters, the first counting the completed alphabets. Past 701 the
      source would index beyond the alphabet, so the domain stops there. */
  function ColumnLetter(i: int): (r: string)
    requires 0 <= i < 702
    ensures 0 < |r| <= 2 && AllLetters(r)
    ensures |r| == 1 <==> i < 26
  {
    ColLettersInOrder();
    if i < 26 then [ColLetters[i]] else [ColLetters[i / 26 - 1], ColLetters[i % 26]]
  }

  /** The column number a string of one or two capital letters names: the
      inverse of `ColumnLetter`. */
  function ColumnIndex(s: string): int
    requires 0 < |s| <= 2
  {
    if |s| == 1 then LetterIndex(s[0]) else (LetterIndex(s[0]) + 1) * 26 + LetterIndex(s[1])
  }

  lemma ColumnRoundTrip(i: int)
    requires 0 <= i < 702
    ensures ColumnIndex(ColumnLetter(i)) == i
  {
    ColLettersInOrder();
    if i >= 26 {
      var r := ColumnLetter(i);
      assert LetterIndex(r[0]) == i / 26 - 1 && LetterIndex(r[1]) == i % 26;
    }
  }

  /** Distinct columns get distinct letters. */
  lemma ColumnLetterInjective(i: int, j: int)
    requires 0 <= i < 702 && 0 <= j < 702
    ensures ColumnLetter(i) == ColumnLetter(j) <==> i == j
  {
    ColumnRoundTrip(i);
    ColumnRoundTrip(j);
  }

  /** Column 25 is the last single letter, 26 the first pair, 701 the last. */
  lemma ColumnLetterExamples()
    ensures ColumnLetter(0) == "A" && ColumnLetter(25) == "Z"
    ensures ColumnLetter(26) == "AA" && ColumnLetter(27) == "AB" && ColumnLetter(701) == "ZZ"
  {
  }

  /** The position of the first character of `s` that is not a capital letter. */
  function LetterRun(s: string): (n: nat)
    ensures n <= |s| && AllLetters(s[..n])
    ensures n < |s| ==> !IsLetter(s[n])
  {
    if s == [] || !IsLetter(s[0]) then 0 else 1 + LetterRun(s[1..])
  }

  lemma {:induction false} LetterRunOfSplit(l: string, d: string)
    requires AllLetters(l) && d != [] && !IsLetter(d[0])
    ensures LetterRun(l + d) == |l|
  {
    if l != [] {
      assert (l + d)[1..] == l[1..] + d;
      LetterRunOfSplit(l[1..], d);
    }
  }

  /** `getCellKey`: the column letters followed by the row number plus one. */
  function CellKey(row: int, col: int): string
    requires 0 <= col < 702
  {
    ColumnLetter(col) + IntString(row + 1)
  }

  /** A key names one cell: its letters and its number can be read back. */
  lemma CellKeyInjective(r1: int, c1: int, r2: int, c2: int)
    requires 0 <= c1 < 702 && 0 <= c2 < 702
    ensures CellKey(r1, c1) == CellKey(r2, c2) <==> (r1 == r2 && c1 == c2)
  {
    if CellKey(r1, c1) == CellKey(r2, c2) {
      var s := CellKey(r1, c1);
      var l1, l2 := ColumnLetter(c1), ColumnLetter(c2);
      LetterRunOfSplit(l1, IntString(r1 + 1));
      LetterRunOfSplit(l2, IntString(r2 + 1));
      assert l1 == s[..|l1|] && l2 == s[..|l2|];
      assert IntString(r1 + 1) == s[|l1|..] && IntString(r2 + 1) == s[|l2|..];
      ColumnLetterInjective(c1, c2);
      IntStringInjective(r1 + 1, r2 + 1);
    }
  }

  /** `DEFAULT_COLUMN_DEF`: a text column of the default width named by its
      letters, with id `col-` and the column number. */
  function DefaultColumnDef(i: int): ColumnDef
    requires 0 <= i < 702
  {
    ColumnDef("col-" + IntString(i), ColumnLetter(i), Text, Some(DefaultColumnWidth),
              None, None, None, None, None, None)
  }

  /** Default definitions of distinct columns have distinct ids and names;
      each is a text column 120 wide with no other option set. */
  lemma DefaultColumnDefsDistinct(i: int, j: int)
    requires 0 <= i < 702 && 0 <= j < 702
    ensures DefaultColumnDef(i).kind == Text && DefaultColumnDef(i).width == Some(120)
    ensures i != j ==> DefaultColumnDef(i).id != DefaultColumnDef(j).id
    ensures i != j ==> DefaultColumnDef(i).name != DefaultColumnDef(j).name
  {
    ColumnLetterInjective(i, j);
    if DefaultColumnDef(i).id == DefaultColumnDef(j).id {
      var a, b := DefaultColumnDef(i).id, DefaultColumnDef(j).id;
      assert IntString(i) == a[4..] && IntString(j) == b[4..];
      IntStringInjective(i, j);
    }
  }
}
