/**
 The packed table of compact_tsv/compact_tsv.h: rows are written as the cells that changed, each cell
 as the offset of a string stored once, earlier in the same bytes.
 */
module CompactTsv {
  import opened StreamLog

  type Byte = x: int | 0 <= x < 256
  type Str = seq<Byte>
  type Row = seq<Str>

  const ROW_DONE: Byte := 254
  const STORAGE: Byte := 255
  const MAX_COLUMNS := 254
  const LENGTH_LIMIT := 0x1_0000
  const SIZE_LIMIT := 0x1_0000_0000

  function U16(n: nat): (b: seq<Byte>)
    ensures |b| == 2
  {
    [n % 256, n / 256 % 256]
  }

  function U32(n: nat): (b: seq<Byte>)
    ensures |b| == 4
  {
    [n % 256, n / 256 % 256, n / 0x1_0000 % 256, n / 0x100_0000 % 256]
  }

  function ReadU16(data: seq<Byte>, p: nat): (n: nat)
    requires p + 2 <= |data|
  {
    var low: nat, high: nat := data[p], data[p + 1];
    low + 256 * high
  }

  function ReadU32(data: seq<Byte>, p: nat): (n: nat)
    requires p + 4 <= |data|
  {
    var high: nat := ReadU16(data, p + 2);
    ReadU16(data, p) + 0x1_0000 * high
  }

  lemma U16RoundTrip(data: seq<Byte>, p: nat, n: nat)
    requires n < LENGTH_LIMIT && p + 2 <= |data| && data[p..p + 2] == U16(n)
    ensures ReadU16(data, p) == n
  {
    assert data[p] == data[p..p + 2][0] && data[p + 1] == data[p..p + 2][1];
  }

  lemma U32RoundTrip(data: seq<Byte>, p: nat, n: nat)
    requires n < SIZE_LIMIT && p + 4 <= |data| && data[p..p + 4] == U32(n)
    ensures ReadU32(data, p) == n
  {
    var b := data[p..p + 4];
    assert data[p] == b[0] && data[p + 1] == b[1] && data[p + 2] == b[2] && data[p + 3] == b[3];
    var h := n / 0x1_0000;
    assert n / 0x100_0000 == h / 256 && n % 0x1_0000 == n % 256 + 256 * (n / 256 % 256);
  }

  /** What has been packed so far. An empty `current` means that the width is not known yet. */
  datatype Packer = Packer(first: bool, current: Row, data: seq<Byte>, offsets: map<Str, nat>)

  function StoreString(p: Packer, s: Str): Packer {
    p.(data := p.data + ([STORAGE] + U16(|s|) + s + [0]), offsets := p.offsets[s := |p.data| + 1])
  }

  function Intern(p: Packer, s: Str): (q: Packer)
    ensures s in q.offsets
  {
    if s in p.offsets then p else StoreString(p, s)
  }

  predicate Changed(p: Packer, i: nat, s: Str)
    requires i < |p.current|
  {
    s != p.current[i] || p.first
  }

  function PutCell(p: Packer, i: nat, s: Str): (q: Packer)
    requires i < |p.current| <= MAX_COLUMNS
    ensures |q.current| == |p.current| && q.first == p.first
  {
    if Changed(p, i, s) then
      var q := Intern(p, s);
      q.(current := p.current[i := s], data := q.data + ([i as Byte] + U32(q.offsets[s])))
    else p
  }

  /** The first `i` cells of a row. */
  function PutCells(p: Packer, row: Row, i: nat): (q: Packer)
    requires i <= |row| == |p.current| <= MAX_COLUMNS
    ensures |q.current| == |p.current| && q.first == p.first
  {
    if i == 0 then p else PutCell(PutCells(p, row, i - 1), i - 1, row[i - 1])
  }

  function Sized(p: Packer, width: nat): Packer {
    if p.current == [] then p.(current := seq(width, _ => [])) else p
  }

  /** A row that fits: not empty, not too wide, as wide as the others, of strings not too long. */
  predicate Fits(p: Packer, row: Row) {
    && 0 < |row| <= MAX_COLUMNS
    && (p.current == [] || |p.current| == |row|)
    && (forall i :: 0 <= i < |row| ==> |row[i]| < LENGTH_LIMIT)
  }

  function PutRow(p: Packer, row: Row): Packer
    requires Fits(p, row)
  {
    var q := PutCells(Sized(p, |row|), row, |row|);
    q.(first := false, data := q.data + [ROW_DONE])
  }

  /** `CompactTSV`, the packing half. */
  class CompactTSV {
    var done: bool
    var dim: nat
    var first: bool
    var current: Row
    var data: seq<Byte>
    var offsets: map<Str, nat>

    function State(): Packer
      reads this
    {
      Packer(first, current, data, offsets)
    }

    ghost predicate Sound()
      reads this
    {
      |current| == dim <= MAX_COLUMNS
    }

    constructor (dim: nat)
      requires dim <= MAX_COLUMNS
      ensures Sound() && !done && State() == Packer(true, seq(dim, _ => []), [], map[])
    {
      this.done, this.dim, first, data, offsets := false, dim, true, [], map[];
      current := seq(dim, _ => []);
    }

    /** `ok` is false when the check that the bytes stay addressable fails, which ends the program. */
    method Store(s: Str) returns (ok: bool, offset: nat)
      requires |s| < LENGTH_LIMIT
      modifies this`data, this`offsets
      ensures State() == StoreString(old(State()), s)
      ensures offset == |old(data)| + 1 && ok == (|data| < SIZE_LIMIT)
    {
      data := data + [STORAGE];
      offset := |data|;
      data := data + U16(|s|);
      data := data + (s + [0]);
      offsets := offsets[s := offset];
      assert data == old(data) + ([STORAGE] + U16(|s|) + s + [0]);
      ok := |data| < SIZE_LIMIT;
    }

    method PackCell(i: nat, s: Str) returns (ok: bool)
      requires Sound() && i < |current| && |s| < LENGTH_LIMIT
      modifies this`current, this`data, this`offsets
      ensures Sound() && |data| >= |old(data)|
      ensures ok ==> State() == PutCell(old(State()), i, s)
      ensures !ok ==> |PutCell(old(State()), i, s).data| >= SIZE_LIMIT
    {
      ok := true;
      if s != current[i] || first {
        current := current[i := s];
        var offset;
        if s in offsets {
          offset := offsets[s];
        } else {
          ok, offset := Store(s);
          if !ok { return; }
        }
        data := data + ([i as Byte] + U32(offset));
      }
    }

    /** `operator()`: the row is packed, unless the bytes would no longer be addressable. */
    method PackRow(row: Row) returns (ok: bool)
      requires Sound() && !done && Fits(State(), row)
      modifies this
      ensures !done
      ensures ok <==> |PutRow(old(State()), row).data| < SIZE_LIMIT
      ensures ok ==> Sound() && State() == PutRow(old(State()), row)
    {
      ghost var p := Sized(State(), |row|);
      if dim == 0 {
        dim := |row|;
        current := seq(dim, _ => []);
      }
      for i := 0 to |row|
        invariant Sound() && !done && dim == |row| && State() == PutCells(p, row, i)
      {
        ok := PackCell(i, row[i]);
        if !ok {
          CellsGrow(p, row, i + 1, |row|);
          return;
        }
      }
      data := data + [ROW_DONE];
      first := false;
      ok := |data| < SIZE_LIMIT;
    }

    method Finalize()
      requires !done
      modifies this`done
      ensures done
    {
      done := true;
    }
  }

  lemma {:induction false} CellsGrow(p: Packer, row: Row, i: nat, j: nat)
    requires i <= j <= |row| == |p.current| <= MAX_COLUMNS
    ensures |PutCells(p, row, i).data| <= |PutCells(p, row, j).data|
    decreases j
  {
    if i < j { CellsGrow(p, row, i, j - 1); }
  }

  /** The unpacking half: the row being updated, its width once known, and the rows passed on. */
  datatype Unpacker = Unpacker(row: Row, dim: nat, rows: seq<Row>)

  const START := Unpacker([], 0, [])

  function Update(row: Row, i: nat, s: Str): Row {
    if i < |row| then row[i := s] else row + seq(i - |row|, _ => []) + [s]
  }

  /** One record at position `p`. `None` stands for a failed assertion, or for a read outside of the
      bytes, which the source does not always check for. */
  function Step(data: seq<Byte>, p: nat, u: Unpacker): Option<(nat, Unpacker)>
    requires p < |data|
  {
    if data[p] == STORAGE then
      if p + 3 > |data| || p + 4 + ReadU16(data, p + 1) > |data| then None
      else Some((p + 4 + ReadU16(data, p + 1), u))
    else if data[p] == ROW_DONE then
      if u.row == [] || (u.dim != 0 && u.dim != |u.row|) then None
      else Some((p + 1, u.(dim := |u.row|, rows := u.rows + [u.row])))
    else if p + 5 > |data| then None
    else
      var offset := ReadU32(data, p + 1);
      if offset + 2 > |data| || offset + 2 + ReadU16(data, offset) > |data| then None
      else Some((p + 5, u.(row := Update(u.row, data[p], data[offset + 2..offset + 2 + ReadU16(data, offset)]))))
  }

  function Scan(data: seq<Byte>, p: nat, u: Unpacker): Option<Unpacker>
    requires p <= |data|
    decreases |data| - p
  {
    if p == |data| then Some(u)
    else (
      match Step(data, p, u)
      case None => None
      case Some((q, v)) => if p < q <= |data| then Scan(data, q, v) else None)
  }

  /** `CompactTSV::Unpack`, collecting the rows that are passed to the callback. */
  method Unpack(data: seq<Byte>) returns (rows: Option<seq<Row>>, total: nat)
    ensures rows.None? <==> Scan(data, 0, START).None?
    ensures rows.Some? ==> rows.value == Scan(data, 0, START).value.rows && total == |rows.value|
  {
    var u, p := START, 0;
    total := 0;
    while p != |data|
      invariant p <= |data| && total == |u.rows|
      invariant Scan(data, p, u) == Scan(data, 0, START)
      decreases |data| - p
    {
      var index := data[p];
      ghost var q, v := p, u;
      if index == STORAGE {
        if p + 3 > |data| { return None, total; }
        var length := ReadU16(data, p + 1);
        p := p + 1 + 2 + length + 1;
        if p > |data| { return None, total; }
      } else if index == ROW_DONE {
        if u.row == [] { return None, total; }
        if u.dim != 0 && u.dim != |u.row| { return None, total; }
        u := u.(dim := |u.row|, rows := u.rows + [u.row]);
        p := p + 1;
        total := total + 1;
      } else {
        if p + 5 > |data| { return None, total; }
        var offset := ReadU32(data, p + 1);
        if offset + 2 > |data| { return None, total; }
        var length := ReadU16(data, offset);
        if offset + 2 + length > |data| { return None, total; }
        u := u.(row := Update(u.row, index, data[offset + 2..offset + 2 + length]));
        p := p + 5;
      }
      assert Step(data, q, v) == Some((p, u));
    }
    rows := Some(u.rows);
  }

  lemma StepOnLonger(data: seq<Byte>, more: seq<Byte>, p: nat, u: Unpacker)
    requires p < |data| && Step(data, p, u).Some?
    ensures Step(data + more, p, u) == Step(data, p, u)
    ensures p < Step(data, p, u).value.0 <= |data|
  {
    var longer := data + more;
    assert forall q :: 0 <= q < |data| ==> longer[q] == data[q];
    if data[p] != STORAGE && data[p] != ROW_DONE {
      var offset := ReadU32(data, p + 1);
      var end := offset + 2 + ReadU16(data, offset);
      assert longer[offset + 2..end] == data[offset + 2..end];
    }
  }

  /** What was read stays read when bytes are appended. */
  lemma {:induction false} ScanOnLonger(data: seq<Byte>, more: seq<Byte>, p: nat, u: Unpacker)
    requires p <= |data| && Scan(data, p, u).Some?
    ensures Scan(data + more, p, u) == Scan(data + more, |data|, Scan(data, p, u).value)
    decreases |data| - p
  {
    if p < |data| {
      StepOnLonger(data, more, p, u);
      var Some((q, v)) := Step(data, p, u);
      ScanOnLonger(data, more, q, v);
    }
  }

  /** Offset `o` addresses the stored string `s`. */
  ghost predicate Stored(data: seq<Byte>, o: nat, s: Str) {
    && 0 < o && |s| < LENGTH_LIMIT && o + 3 + |s| <= |data|
    && data[o - 1] == STORAGE && data[o..o + 2] == U16(|s|) && data[o + 2..o + 2 + |s|] == s
  }

  /** Every offset in the table is the address of its string. */
  ghost predicate Interned(p: Packer) {
    forall s :: s in p.offsets ==> Stored(p.data, p.offsets[s], s)
  }

  /** Reading back what has been packed so far gives `u`. */
  ghost predicate Reads(p: Packer, u: Unpacker) {
    Interned(p) && Scan(p.data, 0, START) == Some(u)
  }

  lemma StoredOnLonger(data: seq<Byte>, more: seq<Byte>, o: nat, s: Str)
    requires Stored(data, o, s)
    ensures Stored(data + more, o, s)
  {
    var longer := data + more;
    assert longer[o..o + 2] == data[o..o + 2];
    assert longer[o + 2..o + 2 + |s|] == data[o + 2..o + 2 + |s|];
  }

  /** Appending one record appends its effect. */
  lemma AppendRecord(p: Packer, u: Unpacker, record: seq<Byte>, v: Unpacker)
    requires Reads(p, u) && record != []
    requires Step(p.data + record, |p.data|, u) == Some((|p.data| + |record|, v))
    ensures Reads(p.(data := p.data + record), v)
  {
    ScanOnLonger(p.data, record, 0, START);
    forall s | s in p.offsets ensures Stored(p.data + record, p.offsets[s], s) {
      StoredOnLonger(p.data, record, p.offsets[s], s);
    }
  }

  lemma StoreReads(p: Packer, u: Unpacker, s: Str)
    requires Reads(p, u) && |s| < LENGTH_LIMIT
    ensures Reads(StoreString(p, s), u)
  {
    var n, record := |p.data|, [STORAGE] + U16(|s|) + s + [0];
    var data := p.data + record;
    assert data[n] == STORAGE && data[n + 1..n + 3] == U16(|s|);
    assert data[n + 3..n + 3 + |s|] == s;
    U16RoundTrip(data, n + 1, |s|);
    AppendRecord(p, u, record, u);
  }

  lemma CellReads(p: Packer, u: Unpacker, i: nat, s: Str)
    requires Reads(p, u) && s in p.offsets && i < MAX_COLUMNS && |p.data| < SIZE_LIMIT
    ensures Reads(p.(data := p.data + ([i as Byte] + U32(p.offsets[s]))), u.(row := Update(u.row, i, s)))
  {
    hide Update, Scan, U32, U16, ReadU16, ReadU32;
    var n, o := |p.data|, p.offsets[s];
    assert Stored(p.data, o, s);
    var record := [i as Byte] + U32(o);
    var data := p.data + record;
    assert data[n + 1..n + 5] == U32(o);
    U32RoundTrip(data, n + 1, o);
    StoredOnLonger(p.data, record, o, s);
    U16RoundTrip(data, o, |s|);
    AppendRecord(p, u, record, u.(row := Update(u.row, i, s)));
  }

  /** The row being read agrees with the row being written, up to cell `i` of the first row. */
  ghost predicate Agrees(p: Packer, u: Unpacker, i: nat) {
    && i <= |p.current|
    && u.row == if p.first then p.current[..i] else p.current
  }

  lemma PutCellReads(p: Packer, u: Unpacker, i: nat, s: Str)
    requires i < |p.current| <= MAX_COLUMNS && |s| < LENGTH_LIMIT && |PutCell(p, i, s).data| < SIZE_LIMIT
    requires Reads(p, u) && Agrees(p, u, i)
    ensures var v := u.(row := Update(u.row, i, s));
            Reads(PutCell(p, i, s), v) && Agrees(PutCell(p, i, s), v, i + 1)
  {
    if Changed(p, i, s) {
      if s !in p.offsets { StoreReads(p, u, s); }
      CellReads(Intern(p, s), u, i, s);
      if p.first { assert Update(u.row, i, s) == p.current[i := s][..i + 1]; }
    } else {
      assert u.row == u.row[i := s];
    }
  }

  lemma PutCellCurrent(p: Packer, i: nat, s: Str)
    requires i < |p.current| <= MAX_COLUMNS
    ensures PutCell(p, i, s).current == p.current[i := s]
  {
    assert p.current[i := p.current[i]] == p.current;
  }

  lemma {:induction false} PutCellsRead(p: Packer, u: Unpacker, row: Row, i: nat)
    requires i <= |row| == |p.current| <= MAX_COLUMNS && |PutCells(p, row, i).data| < SIZE_LIMIT
    requires forall j :: 0 <= j < |row| ==> |row[j]| < LENGTH_LIMIT
    requires Reads(p, u) && Agrees(p, u, 0)
    ensures var q := PutCells(p, row, i);
            && q.current == row[..i] + p.current[i..]
            && Reads(q, u.(row := if p.first then row[..i] else q.current))
  {
    hide Reads, PutCell;
    if 0 < i {
      CellsGrow(p, row, i - 1, i);
      PutCellsRead(p, u, row, i - 1);
      var q := PutCells(p, row, i - 1);
      var v := u.(row := if p.first then row[..i - 1] else q.current);
      assert p.first ==> row[..i - 1] == q.current[..i - 1];
      PutCellReads(q, v, i - 1, row[i - 1]);
      PutCellCurrent(q, i - 1, row[i - 1]);
      assert q.current[i - 1 := row[i - 1]] == row[..i] + p.current[i..];
      assert p.first ==> Update(row[..i - 1], i - 1, row[i - 1]) == row[..i];
    } else {
      assert row[..0] + p.current[0..] == p.current;
      assert p.current[..0] == row[..0] == [];
    }
  }

  /** Between rows: the packed bytes read back as the rows packed. */
  ghost predicate Holds(p: Packer, rows: seq<Row>) {
    && (p.first <==> rows == [])
    && (p.first ==> p.data == [] && p.offsets == map[])
    && (!p.first ==> p.current == rows[|rows| - 1] && p.current != [])
    && |p.current| <= MAX_COLUMNS
    && Reads(p, Unpacker(if p.first then [] else p.current, if p.first then 0 else |p.current|, rows))
  }

  lemma RowDoneStep(data: seq<Byte>, u: Unpacker)
    requires u.row != [] && (u.dim == 0 || u.dim == |u.row|)
    ensures Step(data + [ROW_DONE], |data|, u)
         == Some((|data| + 1, u.(dim := |u.row|, rows := u.rows + [u.row])))
  {
  }

  lemma PutRowHolds(p: Packer, rows: seq<Row>, row: Row)
    requires Holds(p, rows) && Fits(p, row) && |PutRow(p, row).data| < SIZE_LIMIT
    ensures Holds(PutRow(p, row), rows + [row])
  {
    hide PutCells, Scan, Stored, Step;
    var sized := Sized(p, |row|);
    var u := Unpacker(if p.first then [] else p.current, if p.first then 0 else |p.current|, rows);
    PutCellsRead(sized, u, row, |row|);
    var q := PutCells(sized, row, |row|);
    assert row[..|row|] == row && row + sized.current[|row|..] == row;
    var v := u.(row := row);
    RowDoneStep(q.data, v);
    AppendRecord(q, v, [ROW_DONE], v.(dim := |row|, rows := rows + [row]));
  }

  /** Rows of one width, neither empty nor too wide, of strings not too long. */
  ghost predicate Table(rows: seq<Row>, width: nat) {
    && 0 < width <= MAX_COLUMNS
    && (forall k :: 0 <= k < |rows| ==> |rows[k]| == width)
    && (forall k, i :: 0 <= k < |rows| && 0 <= i < width ==> |rows[k][i]| < LENGTH_LIMIT)
  }

  /** Packing rows one by one; `dim` is the width given in advance, or zero. */
  ghost function PackAll(dim: nat, rows: seq<Row>, width: nat): (p: Packer)
    requires Table(rows, width) && (dim == 0 || dim == width)
    ensures |p.current| == if rows == [] then dim else width
  {
    if rows == [] then Packer(true, seq(dim, _ => []), [], map[])
    else PutRow(PackAll(dim, rows[..|rows| - 1], width), rows[|rows| - 1])
  }

  lemma PutRowGrows(p: Packer, row: Row)
    requires Fits(p, row)
    ensures |p.data| < |PutRow(p, row).data|
  {
    CellsGrow(Sized(p, |row|), row, 0, |row|);
  }

  lemma {:induction false} PackAllHolds(dim: nat, rows: seq<Row>, width: nat)
    requires Table(rows, width) && (dim == 0 || dim == width) && |PackAll(dim, rows, width).data| < SIZE_LIMIT
    ensures Holds(PackAll(dim, rows, width), rows)
    decreases |rows|
  {
    if rows != [] {
      var before, last := rows[..|rows| - 1], rows[|rows| - 1];
      PutRowGrows(PackAll(dim, before, width), last);
      PackAllHolds(dim, before, width);
      PutRowHolds(PackAll(dim, before, width), before, last);
      assert before + [last] == rows;
    }
  }

  /** Unpacking the packed bytes gives exactly the rows, in order, and their number; nothing outside
      of the bytes is read. */
  lemma RoundTrip(dim: nat, rows: seq<Row>, width: nat)
    requires Table(rows, width) && (dim == 0 || dim == width) && |PackAll(dim, rows, width).data| < SIZE_LIMIT
    ensures Scan(PackAll(dim, rows, width).data, 0, START).Some?
    ensures Scan(PackAll(dim, rows, width).data, 0, START).value.rows == rows
  {
    PackAllHolds(dim, rows, width);
  }

  /** Packing with the object, then unpacking. `ok` is false only when the bytes would no longer be
      addressable. */
  method PackAndUnpack(dim: nat, rows: seq<Row>, width: nat)
    returns (ok: bool, unpacked: Option<seq<Row>>, total: nat)
    requires Table(rows, width) && (dim == 0 || dim == width)
    ensures ok <==> |PackAll(dim, rows, width).data| < SIZE_LIMIT
    ensures ok ==> unpacked == Some(rows) && total == |rows|
  {
    var packer := new CompactTSV(dim);
    unpacked, total := None, 0;
    for k := 0 to |rows|
      invariant packer.Sound() && !packer.done && fresh(packer)
      invariant packer.State() == PackAll(dim, rows[..k], width) && |packer.data| < SIZE_LIMIT
    {
      assert rows[..k + 1][..k] == rows[..k];
      ok := packer.PackRow(rows[k]);
      if !ok {
        PackAllGrows(dim, rows, width, k + 1);
        return;
      }
    }
    assert rows[..|rows|] == rows;
    packer.Finalize();
    RoundTrip(dim, rows, width);
    unpacked, total := Unpack(packer.data);
    ok := true;
  }

  lemma {:induction false} PackAllGrows(dim: nat, rows: seq<Row>, width: nat, k: nat)
    requires Table(rows, width) && (dim == 0 || dim == width) && k <= |rows|
    ensures |PackAll(dim, rows[..k], width).data| <= |PackAll(dim, rows, width).data|
    decreases |rows|
  {
    if k < |rows| {
      var before := rows[..|rows| - 1];
      PackAllGrows(dim, before, width, k);
      assert before[..k] == rows[..k];
      PutRowGrows(PackAll(dim, before, width), rows[|rows| - 1]);
    } else {
      assert rows[..k] == rows;
    }
  }
}
