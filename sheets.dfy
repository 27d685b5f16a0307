/** The sheets editor (src/apps/sheets/SheetsEditor.tsx): a 20 by 10 grid of
    text inputs whose values live in the shared map "cells", keyed by the
    editor's own cell keys. */
module Sheets {
  import opened Shared
  import opened Strings
  import SheetTypes

  const Cols := 10
  const Rows := 20

  /** The editor's local `COL_LETTERS`: the first ten letters. */
  const Letters: string := SheetTypes.ColLetters[..Cols]

  lemma LettersAreAToJ()
    ensures Letters == "ABCDEFGHIJ"
  {
  }

  /** The editor's local `getCellKey`. */
  function CellKey(r: int, c: int): string
    requires 0 <= c < Cols
  {
    [Letters[c]] + IntString(r + 1)
  }

  /** The local key of a cell is the key the shared sheet types give it. */
  lemma CellKeyAgrees(r: int, c: int)
    requires 0 <= c < Cols
    ensures CellKey(r, c) == SheetTypes.CellKey(r, c)
  {
  }

  /** The first and the last cell of the grid. */
  lemma CellKeyExamples()
    ensures CellKey(0, 0) == "A1" && CellKey(Rows - 1, Cols - 1) == "J20"
  {
    DecimalPrefix();
  }

  lemma DecimalPrefix()
    ensures Decimal(1) == "1" && Decimal(20) == "20"
  {
    assert Decimal(20) == Decimal(2) + "0";
  }

  /** The keys of the grid's inputs, row by row. */
  function GridKeys(): (keys: seq<string>)
    ensures |keys| == Rows * Cols
    ensures forall k :: 0 <= k < |keys| ==> keys[k] == CellKey(k / Cols, k % Cols)
  {
    seq(Rows * Cols, k requires 0 <= k < Rows * Cols => CellKey(k / Cols, k % Cols))
  }

  /** The 200 inputs have pairwise distinct keys, so no two share a value. */
  lemma GridKeysDistinct(i: int, j: int)
    requires 0 <= i < j < Rows * Cols
    ensures GridKeys()[i] != GridKeys()[j]
  {
    var keys := GridKeys();
    CellKeyAgrees(i / Cols, i % Cols);
    CellKeyAgrees(j / Cols, j % Cols);
    SheetTypes.CellKeyInjective(i / Cols, i % Cols, j / Cols, j % Cols);
    assert i == (i / Cols) * Cols + i % Cols && j == (j / Cols) * Cols + j % Cols;
  }

  /** `cells[key] ?? ''`: what the input for `key` shows. */
  function CellValue(cells: map<string, string>, key: string): (v: string)
    ensures key in cells ==> v == cells[key]
    ensures key !in cells ==> v == ""
  {
    if key in cells then cells[key] else ""
  }

  /** After `setCell(key, v)` the input for `key` shows `v` and every other
      input shows what it showed before; a key never written shows ''. */
  lemma SetCellShows(cells: map<string, string>, key: string, v: string, other: string)
    ensures CellValue(cells[key := v], key) == v
    ensures other != key ==> CellValue(cells[key := v], other) == CellValue(cells, other)
    ensures other !in cells ==> CellValue(cells, other) == ""
  {
  }

  class SheetsEditor {
    /** The document's shared map "cells". */
    const cells: SharedMap<string>

    constructor (cells: SharedMap<string>)
      ensures this.cells == cells
    {
      this.cells := cells;
    }

    /** `setCell`: writes one key of the shared map. */
    method SetCell(key: string, value: string)
      modifies cells
      ensures cells.entries == old(cells.entries)[key := value]
      ensures CellValue(cells.entries, key) == value
    {
      cells.Set(key, value);
    }

    /** What the input for a key displays. */
    function Display(key: string): string
      reads cells
    {
      CellValue(cells.entries, key)
    }
  }
}
