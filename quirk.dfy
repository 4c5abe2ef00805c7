/**
 * The payload filter of `update_payload_scatter_chart` as written
 * (spacex_dash_app.py:122). It filters `payload <= hi`, calls `reset_index()`
 * (the labels become 0..k-1), then indexes that frame with the mask
 * `payload >= lo` built from the frame before the filter, whose labels are
 * the rows' positions in the loaded table. pandas aligns a boolean Series
 * with the frame by label. It raises IndexingError ("Unalignable boolean
 * Series provided as indexer") when a label of the frame is missing from the
 * mask. Otherwise it keeps the frame's row at label j when the mask at label
 * j holds, and that mask entry may test a different row's payload (it does
 * whenever an earlier row was dropped by the `<= hi` filter).
 *
 * This module exists only to exhibit that divergence. The rest of the model
 * uses the intended single filter, SpaceXDash.ScatterData.
 */
module ScatterAsWritten {
  import opened Wrappers
  import opened Seqs
  import opened SpaceXDash

  /** A row of a pandas frame: its index label and its record. */
  datatype Row = Row(index: nat, rec: Record)

  /** `data` with its index: the selected rows, labelled by their position in the table from `from` on. */
  function Indexed(t: Table, selected: string, from: nat): (rows: seq<Row>)
    ensures forall i :: 0 <= i < |rows| ==> rows[i].rec in t && Selects(selected, rows[i].rec.site)
    ensures selected == AllSites ==> |rows| == |t| && forall i :: 0 <= i < |rows| ==> rows[i] == Row(from + i, t[i])
  {
    if t == [] then []
    else (if Selects(selected, t[0].site) then [Row(from, t[0])] else []) + Indexed(t[1..], selected, from + 1)
  }

  function RowRecords(rows: seq<Row>): Table
  {
    Map(rows, (r: Row) => r.rec)
  }

  /** The mask `data["Payload Mass (kg)"] >= lo` at index label `at`, or None when `data` has no such label. */
  function MaskAt(data: seq<Row>, at: nat, lo: real): Option<bool>
  {
    if data == [] then None
    else if data[0].index == at then Some(data[0].rec.payload >= lo)
    else MaskAt(data[1..], at, lo)
  }

  /** The rows of a labelled frame whose label has a True mask entry. */
  function MaskSelected(rows: seq<Row>, data: seq<Row>, lo: real): seq<Row>
  {
    Filter(rows, (row: Row) => MaskAt(data, row.index, lo) == Some(true))
  }

  const Unalignable := "Unalignable boolean Series provided as indexer"

  /**
   * Boolean indexing of `frame`, whose row i has label i, by the mask,
   * aligned by label, from label `j` on. Which rows it keeps on success is
   * stated by `AlignedSelectKeeps`.
   */
  function AlignedSelect(frame: Table, j: nat, data: seq<Row>, lo: real): (r: Result<Table, string>)
    ensures r.Err? ==> r.error == Unalignable
    ensures r.Err? <==> exists k :: j <= k < |frame| && MaskAt(data, k, lo).None?
    ensures r.Ok? ==> forall x :: x in r.value ==> x in frame
    decreases |frame| - j
  {
    if j >= |frame| then Ok([])
    else match MaskAt(data, j, lo)
      case None =>
        assert MaskAt(data, j, lo).None?;
        Err(Unalignable)
      case Some(keep) =>
        match AlignedSelect(frame, j + 1, data, lo)
        case Err(e) =>
          assert exists k :: j <= k < |frame| && MaskAt(data, k, lo).None? by {
            var k :| j + 1 <= k < |frame| && MaskAt(data, k, lo).None?;
            assert j <= k;
          }
          Err(e)
        case Ok(rest) => Ok((if keep then [frame[j]] else []) + rest)
  }

  /** The rows kept from a frame labelled from `b` on: its first row if its mask entry is True, then the rest. */
  lemma MaskSelectedCons(f: Table, b: nat, data: seq<Row>, lo: real)
    requires f != []
    ensures RowRecords(MaskSelected(Indexed(f, AllSites, b), data, lo))
         == (if MaskAt(data, b, lo) == Some(true) then [f[0]] else [])
            + RowRecords(MaskSelected(Indexed(f[1..], AllSites, b + 1), data, lo))
  {
    var rows := Indexed(f, AllSites, b);
    var tail := Indexed(f[1..], AllSites, b + 1);
    assert rows == [Row(b, f[0])] + tail;
    assert rows[1..] == tail;
    var head := if MaskAt(data, b, lo) == Some(true) then [Row(b, f[0])] else [];
    assert MaskSelected(rows, data, lo) == head + MaskSelected(tail, data, lo);
    MapConcat(head, MaskSelected(tail, data, lo), (r: Row) => r.rec);
  }

  /** The frame rows kept from label `j` on: row `j` if its mask entry is True, then the rest. */
  lemma MaskSelectedStep(frame: Table, j: nat, data: seq<Row>, lo: real)
    requires j < |frame|
    ensures RowRecords(MaskSelected(Indexed(frame[j..], AllSites, j), data, lo))
         == (if MaskAt(data, j, lo) == Some(true) then [frame[j]] else [])
            + RowRecords(MaskSelected(Indexed(frame[j + 1..], AllSites, j + 1), data, lo))
  {
    assert frame[j..][1..] == frame[j + 1..];
    MaskSelectedCons(frame[j..], j, data, lo);
  }

  lemma AlignedSelectStep(frame: Table, j: nat, data: seq<Row>, lo: real, keep: bool, rest: Table)
    requires j < |frame| && MaskAt(data, j, lo) == Some(keep)
    requires AlignedSelect(frame, j + 1, data, lo) == Ok(rest)
    ensures AlignedSelect(frame, j, data, lo) == Ok((if keep then [frame[j]] else []) + rest)
  {
  }

  /** On success, the selection keeps, in order, exactly the frame rows whose label has a True mask entry. */
  lemma {:induction false} AlignedSelectKeeps(frame: Table, j: nat, data: seq<Row>, lo: real)
    requires j <= |frame|
    ensures var r := AlignedSelect(frame, j, data, lo);
      r.Ok? ==> r.value == RowRecords(MaskSelected(Indexed(frame[j..], AllSites, j), data, lo))
    decreases |frame| - j
  {
    if j == |frame| {
      assert frame[j..] == [];
    } else if MaskAt(data, j, lo).Some? {
      AlignedSelectKeeps(frame, j + 1, data, lo);
      var next := AlignedSelect(frame, j + 1, data, lo);
      if next.Ok? {
        AlignedSelectStep(frame, j, data, lo, MaskAt(data, j, lo).value, next.value);
        MaskSelectedStep(frame, j, data, lo);
      }
    }
  }

  /** `data[data["Payload Mass (kg)"] <= hi]` */
  function AtMost(rows: Table, hi: real): Table
  {
    Filter(rows, (r: Record) => r.payload <= hi)
  }

  /**
   * The frame rows kept when frame row k is tested against table row k:
   * `frame[k]` is kept exactly when `t[k]` weighs at least `lo`.
   */
  function KeptByPosition(frame: Table, t: Table, lo: real): Table
  {
    Map(Filter(Zip(frame, t), (p: (Record, Record)) => p.1.payload >= lo), (p: (Record, Record)) => p.0)
  }

  /** A frame whose rows carry the labels 0, 1, ... has a mask entry for each of its labels. */
  lemma {:induction false} MaskAtConsecutive(data: seq<Row>, base: nat, k: nat, lo: real)
    requires forall i :: 0 <= i < |data| ==> data[i].index == base + i
    requires base <= k < base + |data|
    ensures MaskAt(data, k, lo) == Some(data[k - base].rec.payload >= lo)
  {
    if k > base {
      MaskAtConsecutive(data[1..], base + 1, k, lo);
    }
  }

  /** Positional keeping on a non-empty frame: its first row if the table's first row reaches `lo`, then the rest. */
  lemma KeptByPositionCons(f: Table, u: Table, lo: real)
    requires f != [] && u != []
    ensures KeptByPosition(f, u, lo)
         == (if u[0].payload >= lo then [f[0]] else []) + KeptByPosition(f[1..], u[1..], lo)
  {
    var z := Zip(f, u);
    var rest := Filter(Zip(f[1..], u[1..]), (p: (Record, Record)) => p.1.payload >= lo);
    assert z == [(f[0], u[0])] + Zip(f[1..], u[1..]);
    assert z[1..] == Zip(f[1..], u[1..]);
    var head := if u[0].payload >= lo then [(f[0], u[0])] else [];
    assert Filter(z, (p: (Record, Record)) => p.1.payload >= lo) == head + rest;
    MapConcat(head, rest, (p: (Record, Record)) => p.0);
  }

  /** The mask at labels b, b + 1, ... tests the payloads of `u`, in order. */
  predicate MaskTests(data: seq<Row>, b: nat, u: Table, lo: real)
    decreases |u|
  {
    u == [] || (MaskAt(data, b, lo) == Some(u[0].payload >= lo) && MaskTests(data, b + 1, u[1..], lo))
  }

  /**
   * Where the mask at label b + i tests `u[i]`, the rows kept from a frame
   * labelled from b on are those whose table partner at the same position
   * reaches `lo`.
   */
  lemma {:induction false} AlignedByPosition(f: Table, u: Table, b: nat, data: seq<Row>, lo: real)
    requires |f| <= |u|
    requires MaskTests(data, b, u, lo)
    ensures RowRecords(MaskSelected(Indexed(f, AllSites, b), data, lo)) == KeptByPosition(f, u, lo)
  {
    if f != [] {
      assert (if MaskAt(data, b, lo) == Some(true) then [f[0]] else [])
          == (if u[0].payload >= lo then [f[0]] else []);
      MaskSelectedCons(f, b, data, lo);
      KeptByPositionCons(f, u, lo);
      AlignedByPosition(f[1..], u[1..], b + 1, data, lo);
    }
  }

  /** Labelling the whole table and dropping the labels gives the table back. */
  lemma IndexedAllRecords(t: Table)
    ensures RowRecords(Indexed(t, AllSites, 0)) == t
  {
    var data := Indexed(t, AllSites, 0);
    assert forall i :: 0 <= i < |t| ==> RowRecords(data)[i] == data[i].rec == t[i];
  }

  /** Under "ALL" the mask at labels k, k + 1, ... tests table rows k, k + 1, ... */
  lemma {:induction false} IndexedAllMask(t: Table, k: nat, lo: real)
    requires k <= |t|
    ensures MaskTests(Indexed(t, AllSites, 0), k, t[k..], lo)
    decreases |t| - k
  {
    if k < |t| {
      MaskAtConsecutive(Indexed(t, AllSites, 0), 0, k, lo);
      assert t[k..][0] == t[k] && t[k..][1..] == t[k + 1..];
      IndexedAllMask(t, k + 1, lo);
    }
  }

  /** Under "ALL", line 122 tests frame row k against table row k. */
  lemma AsWrittenAllRows(t: Table, range: PayloadRange)
    ensures var data := Indexed(t, AllSites, 0);
      AlignedSelect(AtMost(RowRecords(data), range.hi), 0, data, range.lo)
        == Ok(KeptByPosition(AtMost(t, range.hi), t, range.lo))
  {
    var data := Indexed(t, AllSites, 0);
    var frame := AtMost(t, range.hi);
    IndexedAllRecords(t);
    IndexedAllMask(t, 0, range.lo);
    assert t[0..] == t && frame[0..] == frame;
    var r := AlignedSelect(frame, 0, data, range.lo);
    assert r.Ok? by {
      forall k | 0 <= k < |frame| ensures MaskAt(data, k, range.lo).Some? {
        MaskAtConsecutive(data, 0, k, range.lo);
      }
    }
    AlignedSelectKeeps(frame, 0, data, range.lo);
    AlignedByPosition(frame, t, 0, data, range.lo);
  }

  /**
   * The launches line 122 keeps, or the error pandas raises there. What it
   * keeps are launches of the selected site under `hi` (the `>= lo` test may
   * land on other rows, see below); it raises only the unalignable-indexer error,
   * and never for "ALL", whose labels cover the re-indexed frame. Under "ALL"
   * the k-th launch under `hi` is kept exactly when the k-th launch of the
   * whole table weighs at least `lo`.
   */
  function AsWrittenRows(t: Table, selected: string, range: PayloadRange): (r: Result<Table, string>)
    ensures r.Err? ==> r.error == Unalignable
    ensures r.Ok? ==> forall x :: x in r.value ==> x in t && Selects(selected, x.site) && x.payload <= range.hi
    ensures selected == AllSites ==> r.Ok?
    ensures selected == AllSites ==> r == Ok(KeptByPosition(AtMost(t, range.hi), t, range.lo))
  {
    var data := Indexed(t, selected, 0);
    var frame := AtMost(RowRecords(data), range.hi);
    assert forall x :: x in RowRecords(data) ==> x in t && Selects(selected, x.site) by {
      forall x | x in RowRecords(data) ensures x in t && Selects(selected, x.site) {
        var i :| 0 <= i < |RowRecords(data)| && RowRecords(data)[i] == x;
        assert x == data[i].rec;
      }
    }
    if selected == AllSites then
      AsWrittenAllRows(t, range);
      AlignedSelect(frame, 0, data, range.lo)
    else
      AlignedSelect(frame, 0, data, range.lo)
  }

  // A table on which the code keeps the wrong launch.
  const Heavy := Record("CCAFS LC-40", 5000.0, "F9 FT", 1)
  const Light := Record("CCAFS LC-40", 500.0, "v1.0", 0)
  const Medium := Record("KSC LC-39A", 2000.0, "FT", 1)

  lemma WrongRowsFrame()
    ensures Indexed([Heavy, Light, Medium], AllSites, 0) == [Row(0, Heavy), Row(1, Light), Row(2, Medium)]
    ensures RowRecords([Row(0, Heavy), Row(1, Light), Row(2, Medium)]) == [Heavy, Light, Medium]
    ensures AtMost([Heavy, Light, Medium], 3000.0) == [Light, Medium]
  {
    var t := [Heavy, Light, Medium];
    assert t[1..] == [Light, Medium] && t[1..][1..] == [Medium];
    assert Indexed([Medium], AllSites, 2) == [Row(2, Medium)];
    assert Indexed([Light, Medium], AllSites, 1) == [Row(1, Light), Row(2, Medium)];
    assert AtMost([Medium], 3000.0) == [Medium];
    assert AtMost([Light, Medium], 3000.0) == [Light, Medium];
  }

  lemma WrongRowsSelect()
    ensures AlignedSelect([Light, Medium], 0, [Row(0, Heavy), Row(1, Light), Row(2, Medium)], 1000.0) == Ok([Light])
  {
    var frame := [Light, Medium];
    var data := [Row(0, Heavy), Row(1, Light), Row(2, Medium)];
    var none: Table := [];
    assert MaskAt(data, 0, 1000.0) == Some(true);
    assert MaskAt(data, 1, 1000.0) == Some(false);
    assert AlignedSelect(frame, 2, data, 1000.0) == Ok(none);
    AlignedSelectStep(frame, 1, data, 1000.0, false, none);
    assert none + none == none;
    AlignedSelectStep(frame, 0, data, 1000.0, true, none);
    assert [frame[0]] + none == [Light];
  }

  lemma WrongRowsIntended()
    ensures PointRecords(ScatterData([Heavy, Light, Medium], AllSites, PayloadRange(1000.0, 3000.0))) == [Medium]
  {
    var t := [Heavy, Light, Medium];
    var range := PayloadRange(1000.0, 3000.0);
    assert t[1..] == [Light, Medium] && t[1..][1..] == [Medium];
    assert InPayloadRange([Medium], range) == [Medium];
    assert InPayloadRange([Light, Medium], range) == [Medium];
    assert InPayloadRange(t, range) == [Medium];
    PointsOfLabelled(InPayloadRange(t, range));
  }

  /**
   * With "ALL", payloads 5000, 500, 2000 and the range [1000, 3000], the
   * code keeps the 500 kg launch and drops the 2000 kg one. The intended
   * filter keeps exactly the 2000 kg launch.
   */
  lemma AsWrittenKeepsWrongRows()
    ensures AsWrittenRows([Heavy, Light, Medium], AllSites, PayloadRange(1000.0, 3000.0)) == Ok([Light])
    ensures PointRecords(ScatterData([Heavy, Light, Medium], AllSites, PayloadRange(1000.0, 3000.0))) == [Medium]
  {
    WrongRowsFrame();
    WrongRowsSelect();
    WrongRowsIntended();
  }

  /**
   * With one site selected, the frame's labels start at 0, but the selected
   * rows keep their table positions as labels: here the only KSC LC-39A
   * launch has label 1, so label 0 is missing from the mask and pandas
   * raises. The intended filter returns that launch.
   */
  lemma AsWrittenUnalignable()
    ensures var t := [Record("CCAFS LC-40", 1000.0, "v1.0", 1),
                      Record("KSC LC-39A", 2000.0, "FT", 1)];
      var range := PayloadRange(0.0, 10000.0);
      && AsWrittenRows(t, "KSC LC-39A", range) == Err(Unalignable)
      && PointRecords(ScatterData(t, "KSC LC-39A", range)) == [t[1]]
  {
    var t := [Record("CCAFS LC-40", 1000.0, "v1.0", 1),
              Record("KSC LC-39A", 2000.0, "FT", 1)];
    var range := PayloadRange(0.0, 10000.0);
    var data := Indexed(t, "KSC LC-39A", 0);
    assert data == [Row(1, t[1])];
    assert RowRecords(data) == [t[1]];
    assert AtMost([t[1]], range.hi) == [t[1]];
    assert MaskAt(data, 0, range.lo) == None;
    assert SiteRows(t, "KSC LC-39A") == [t[1]];
    assert InPayloadRange([t[1]], range) == [t[1]];
    PointsOfLabelled(InPayloadRange([t[1]], range));
  }
}
