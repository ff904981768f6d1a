/**
 How long a packed table is: each distinct string is paid for once, each changed cell five bytes, and
 each row one.
 */
module CompactTsvSize {
  import opened CompactTsv

  ghost function TextSize(strings: set<Str>): nat {
    if strings == {} then 0
    else
      var s :| s in strings;
      |s| + 4 + TextSize(strings - {s})
  }

  lemma {:induction false} TextSizeWith(strings: set<Str>, s: Str)
    requires s !in strings
    ensures TextSize(strings + {s}) == TextSize(strings) + |s| + 4
    decreases |strings|
  {
    var more := strings + {s};
    var t :| t in more && TextSize(more) == |t| + 4 + TextSize(more - {t});
    if t == s {
      assert more - {t} == strings;
    } else {
      assert more - {t} == (strings - {t}) + {s};
      TextSizeWith(strings - {t}, s);
      TextSizeWith(strings - {t}, t);
      assert (strings - {t}) + {t} == strings;
    }
  }

  /** The cells among the first `i` that differ from the row before. */
  function CellsChanged(first: bool, before: Row, row: Row, i: nat): nat
    requires i <= |row| == |before|
  {
    if i == 0 then 0
    else CellsChanged(first, before, row, i - 1) + if first || row[i - 1] != before[i - 1] then 1 else 0
  }

  function Changes(rows: seq<Row>, width: nat): nat
    requires forall k :: 0 <= k < |rows| ==> |rows[k]| == width
  {
    if rows == [] then 0
    else
      var n := |rows| - 1;
      Changes(rows[..n], width) + if n == 0 then width else CellsChanged(false, rows[n - 1], rows[n], width)
  }

  ghost function Strings(rows: seq<Row>): set<Str> {
    set k, i | 0 <= k < |rows| && 0 <= i < |rows[k]| :: rows[k][i]
  }

  lemma CellSize(p: Packer, i: nat, s: Str)
    requires i < |p.current| <= MAX_COLUMNS
    ensures var q := PutCell(p, i, s);
            && q.offsets.Keys == (if Changed(p, i, s) then p.offsets.Keys + {s} else p.offsets.Keys)
            && |q.data| - TextSize(q.offsets.Keys)
            == |p.data| - TextSize(p.offsets.Keys) + if Changed(p, i, s) then 5 else 0
  {
    if Changed(p, i, s) {
      if s in p.offsets {
        assert p.offsets.Keys + {s} == p.offsets.Keys;
      } else {
        TextSizeWith(p.offsets.Keys, s);
      }
    }
  }

  ghost function RowStrings(row: Row, i: nat): set<Str>
    requires i <= |row|
  {
    set j | 0 <= j < i :: row[j]
  }

  lemma {:induction false} CellsKept(p: Packer, row: Row, i: nat)
    requires i <= |row| == |p.current| <= MAX_COLUMNS
    ensures forall j :: i <= j < |row| ==> PutCells(p, row, i).current[j] == p.current[j]
  {
    if 0 < i {
      CellsKept(p, row, i - 1);
      PutCellCurrent(PutCells(p, row, i - 1), i - 1, row[i - 1]);
    }
  }

  lemma {:induction false} CellsStored(p: Packer, row: Row, i: nat)
    requires i <= |row| == |p.current| <= MAX_COLUMNS
    requires !p.first ==> forall j :: 0 <= j < |row| ==> p.current[j] in p.offsets
    ensures PutCells(p, row, i).offsets.Keys == p.offsets.Keys + RowStrings(row, i)
  {
    if 0 < i {
      hide PutCell, TextSize;
      var q := PutCells(p, row, i - 1);
      CellsStored(p, row, i - 1);
      CellsKept(p, row, i - 1);
      CellSize(q, i - 1, row[i - 1]);
      assert RowStrings(row, i) == RowStrings(row, i - 1) + {row[i - 1]};
      assert !Changed(q, i - 1, row[i - 1]) ==> row[i - 1] in p.offsets.Keys;
    }
  }

  lemma {:induction false} CellsSize(p: Packer, row: Row, i: nat)
    requires i <= |row| == |p.current| <= MAX_COLUMNS
    ensures var q := PutCells(p, row, i);
            |q.data| - TextSize(q.offsets.Keys)
            == |p.data| - TextSize(p.offsets.Keys) + 5 * CellsChanged(p.first, p.current, row, i)
  {
    if 0 < i {
      hide PutCell, TextSize;
      CellsSize(p, row, i - 1);
      CellsKept(p, row, i - 1);
      CellSize(PutCells(p, row, i - 1), i - 1, row[i - 1]);
    }
  }

  lemma {:induction false} AllChanged(before: Row, row: Row, i: nat)
    requires i <= |row| == |before|
    ensures CellsChanged(true, before, row, i) == i
  {
    if 0 < i { AllChanged(before, row, i - 1); }
  }

  lemma RowSize(p: Packer, rows: seq<Row>, row: Row)
    requires Holds(p, rows) && Fits(p, row) && p.offsets.Keys == Strings(rows)
    ensures var q := PutRow(p, row);
            && q.offsets.Keys == Strings(rows) + RowStrings(row, |row|)
            && |q.data| - TextSize(q.offsets.Keys)
            == |p.data| - TextSize(p.offsets.Keys) + 1
               + 5 * if p.first then |row| else CellsChanged(false, rows[|rows| - 1], row, |row|)
  {
    hide TextSize, PutCells, CellsChanged, Reads;
    var sized, n := Sized(p, |row|), |rows|;
    if !p.first {
      forall j | 0 <= j < |row| ensures sized.current[j] in p.offsets {
        assert rows[n - 1][j] in Strings(rows);
      }
    } else {
      AllChanged(sized.current, row, |row|);
    }
    CellsStored(sized, row, |row|);
    CellsSize(sized, row, |row|);
  }

  lemma StringsOf(rows: seq<Row>, row: Row)
    ensures Strings(rows + [row]) == Strings(rows) + RowStrings(row, |row|)
  {
    var all := rows + [row];
    forall s | s in Strings(all) ensures s in Strings(rows) || s in RowStrings(row, |row|) {
      var k, i :| 0 <= k < |all| && 0 <= i < |all[k]| && all[k][i] == s;
      if k < |rows| { assert rows[k] == all[k]; }
    }
    forall s | s in Strings(rows) ensures s in Strings(all) {
      var k, i :| 0 <= k < |rows| && 0 <= i < |rows[k]| && rows[k][i] == s;
      assert all[k] == rows[k];
    }
    forall s | s in RowStrings(row, |row|) ensures s in Strings(all) {
      var j :| 0 <= j < |row| && row[j] == s;
      assert all[|rows|][j] == s;
    }
  }

  /** The strings stored are exactly those of the table, each once, and the size is accounted for. */
  lemma {:induction false} PackedSize(dim: nat, rows: seq<Row>, width: nat)
    requires Table(rows, width) && (dim == 0 || dim == width) && |PackAll(dim, rows, width).data| < SIZE_LIMIT
    ensures var p := PackAll(dim, rows, width);
            && p.offsets.Keys == Strings(rows)
            && |p.data| == TextSize(Strings(rows)) + 5 * Changes(rows, width) + |rows|
    decreases |rows|
  {
    if rows != [] {
      hide PutRow, CellsChanged, RowStrings, Reads;
      var n := |rows| - 1;
      var before, row := rows[..n], rows[n];
      var p := PackAll(dim, before, width);
      PutRowGrows(p, row);
      PackedSize(dim, before, width);
      PackAllHolds(dim, before, width);
      RowSize(p, before, row);
      StringsOf(before, row);
      assert before + [row] == rows;
    }
  }

  /** Two strings never share an address, and every address holds its string. */
  lemma OffsetsAreAddresses(dim: nat, rows: seq<Row>, width: nat)
    requires Table(rows, width) && (dim == 0 || dim == width) && |PackAll(dim, rows, width).data| < SIZE_LIMIT
    ensures var p := PackAll(dim, rows, width);
            && (forall s :: s in p.offsets ==> Stored(p.data, p.offsets[s], s))
            && (forall s, t :: s in p.offsets && t in p.offsets && s != t ==> p.offsets[s] != p.offsets[t])
  {
    PackAllHolds(dim, rows, width);
    var p := PackAll(dim, rows, width);
    forall s, t | s in p.offsets && t in p.offsets && p.offsets[s] == p.offsets[t] ensures s == t {
      var o := p.offsets[s];
      assert Stored(p.data, o, s) && Stored(p.data, o, t);
      U16RoundTrip(p.data, o, |s|);
      U16RoundTrip(p.data, o, |t|);
    }
  }
}
