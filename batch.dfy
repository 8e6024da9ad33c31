/**
 * Batch mode of the GUI: a table of at most ten rows (URL, label text, copies), the check that
 * every row is complete before anything is rendered or printed, and the vertical stacking of
 * the rendered labels into one preview image.
 */
module Batch {
  import opened Wrappers
  import opened Geometry
  import opened LabelText

  const MaxRows: int := 10

  /** The copies drop-down of a row lists 1..10; entry i stands for i + 1 copies. */
  const CopiesEntries: int := 10

  /** Vertical gap between stacked labels in the batch preview, in pixels. */
  const PreviewGap: int := 10

  datatype Row = Row(url: string, text: string, copiesIndex: int)

  ghost predicate ValidRow(row: Row)
  {
    0 <= row.copiesIndex < CopiesEntries
  }

  class BatchTable {
    var rows: seq<Row>
    /** The copies value last chosen in any row; a new row starts with it. */
    var lastCopies: int

    ghost predicate Valid()
      reads this
    {
      && |rows| <= MaxRows
      && 1 <= lastCopies <= CopiesEntries
      && forall i :: 0 <= i < |rows| ==> ValidRow(rows[i])
    }

    constructor ()
      ensures Valid() && rows == [] && lastCopies == 1
    {
      rows := [];
      lastCopies := 1;
    }

    /**
     * add_batch_label: refused once the table holds ten rows; otherwise a row with empty URL and
     * label whose copies drop-down shows the last copies value is appended.
     */
    method AddRow() returns (added: bool)
      requires Valid()
      modifies this
      ensures Valid() && lastCopies == old(lastCopies)
      ensures added <==> old(|rows|) < MaxRows
      ensures added ==> rows == old(rows) + [Row("", "", old(lastCopies) - 1)]
      ensures !added ==> rows == old(rows)
    {
      if |rows| >= MaxRows {
        return false;
      }
      rows := rows + [Row("", "", lastCopies - 1)];
      return true;
    }

    /**
     * The currentIndexChanged signal of a row's copies drop-down: the row now shows a different
     * entry, and update_last_copies records its value, index + 1. Picking the entry a row already
     * shows emits no signal, so it is no call of this method and leaves the last value alone.
     */
    method ChooseRowCopies(row: int, index: int)
      requires Valid() && 0 <= row < |rows| && 0 <= index < CopiesEntries
      requires index != rows[row].copiesIndex
      modifies this
      ensures Valid()
      ensures rows == old(rows)[row := old(rows)[row].(copiesIndex := index)]
      ensures lastCopies == index + 1
    {
      rows := rows[row := rows[row].(copiesIndex := index)];
      lastCopies := index + 1;
    }

    /** remove_batch_label: the selected row goes; with no selection (-1) nothing changes. */
    method RemoveRow(selected: int) returns (removed: bool)
      requires Valid() && -1 <= selected < |rows|
      modifies this
      ensures Valid() && lastCopies == old(lastCopies)
      ensures removed <==> 0 <= selected
      ensures removed ==> rows == old(rows)[..selected] + old(rows)[selected + 1..]
      ensures !removed ==> rows == old(rows)
    {
      if selected < 0 {
        return false;
      }
      rows := rows[..selected] + rows[selected + 1..];
      return true;
    }

    /** clear_batch: an empty table is left alone; otherwise the rows go once the user confirms. */
    method Clear(confirmed: bool)
      requires Valid()
      modifies this
      ensures Valid() && lastCopies == old(lastCopies)
      ensures rows == if confirmed then [] else old(rows)
    {
      if |rows| == 0 {
        return;
      }
      if confirmed {
        rows := [];
      }
    }
  }

  /** Eleven additions to an empty table: the first ten each add a row, the eleventh is refused. */
  method AddElevenRows() returns (counts: seq<int>)
    ensures |counts| == 11
    ensures forall i :: 0 <= i < 11 ==> counts[i] == if i < 10 then i + 1 else 10
  {
    var t := new BatchTable();
    counts := [];
    var i := 0;
    while i < 11
      invariant 0 <= i <= 11 && t.Valid()
      invariant |t.rows| == if i < 10 then i else 10
      invariant |counts| == i
      invariant forall k :: 0 <= k < i ==> counts[k] == if k < 10 then k + 1 else 10
    {
      var _ := t.AddRow();
      counts := counts + [|t.rows|];
      i := i + 1;
    }
  }

  // ---------------------------------------------------------------------------------------------
  // Collecting the rows (preview_batch and print_batch)

  /** A stripped row as handed to the layouts, with its copies count. */
  datatype Entry = Entry(url: string, text: string, copies: int)

  datatype Collected = Collected(entries: seq<Entry>, totalCopies: int)

  /** "Empty Batch", or "Missing Data" naming the row by its 1-based number. */
  datatype BatchError = EmptyBatch | MissingData(rowNumber: int)

  /** A row as the loop reads it: URL and label stripped, the copies entry i standing for i + 1. */
  function ToEntry(row: Row): (e: Entry)
    ensures Strip(e.url) == e.url && Strip(e.text) == e.text
    ensures e.copies == row.copiesIndex + 1
  {
    StripIdempotent(row.url);
    StripIdempotent(row.text);
    Entry(Strip(row.url), Strip(row.text), row.copiesIndex + 1)
  }

  function Entries(rows: seq<Row>): (es: seq<Entry>)
    ensures |es| == |rows|
  {
    if |rows| == 0 then [] else Entries(rows[..|rows| - 1]) + [ToEntry(rows[|rows| - 1])]
  }

  /** Entry i is row i as the loop reads it. */
  lemma {:induction false} EntryAt(rows: seq<Row>, i: nat)
    requires i < |rows|
    ensures Entries(rows)[i] == ToEntry(rows[i])
    decreases |rows|
  {
    if i < |rows| - 1 {
      var front := rows[..|rows| - 1];
      EntryAt(front, i);
      assert front[i] == rows[i];
    }
  }

  /** An entry without a URL or without a label once stripped. */
  predicate Blank(e: Entry)
  {
    |e.url| == 0 || |e.text| == 0
  }

  function TotalCopies(es: seq<Entry>): int
  {
    if |es| == 0 then 0 else TotalCopies(es[..|es| - 1]) + es[|es| - 1].copies
  }

  /** The first blank entry at or after i, or |es| when there is none. */
  function FirstBlank(es: seq<Entry>, i: nat): (k: nat)
    requires i <= |es|
    ensures i <= k <= |es|
    ensures forall j :: i <= j < k ==> !Blank(es[j])
    ensures k < |es| ==> Blank(es[k])
    decreases |es| - i
  {
    if i == |es| || Blank(es[i]) then i else FirstBlank(es, i + 1)
  }

  /** The outcome of the collection loop over the stripped rows. */
  function CollectEntries(es: seq<Entry>): (r: Result<Collected, BatchError>)
    ensures r == Failure(EmptyBatch) <==> |es| == 0
    ensures r.Success? ==> r.value.entries == es && forall i :: 0 <= i < |es| ==> !Blank(es[i])
    ensures r.Failure? && r.error.MissingData? ==>
      1 <= r.error.rowNumber <= |es| && Blank(es[r.error.rowNumber - 1])
  {
    if |es| == 0 then Failure(EmptyBatch)
    else
      var k := FirstBlank(es, 0);
      if k < |es| then Failure(MissingData(k + 1))
      else Success(Collected(es, TotalCopies(es)))
  }

  /** Refuse an empty table, stop at the first incomplete row, else hand over every row. */
  function Collect(rows: seq<Row>): (r: Result<Collected, BatchError>)
    ensures r == Failure(EmptyBatch) <==> |rows| == 0
    ensures r.Failure? && r.error.MissingData? ==> 1 <= r.error.rowNumber <= |rows|
  {
    CollectEntries(Entries(rows))
  }

  /** Every entry has a URL and a label. */
  predicate AllComplete(es: seq<Entry>)
  {
    forall i :: 0 <= i < |es| ==> !Blank(es[i])
  }

  /**
   * Collection succeeds exactly when the table is non-empty and every row has a URL and a label
   * after stripping; a refusal names the first row that lacks one. Nothing is rendered or
   * printed unless it succeeds.
   */
  lemma CollectOutcome(rows: seq<Row>)
    ensures Collect(rows).Success? <==> 0 < |rows| && AllComplete(Entries(rows))
    ensures Collect(rows) == Failure(EmptyBatch) <==> |rows| == 0
    ensures Collect(rows).Failure? && 0 < |rows| ==>
      var n := Collect(rows).error.rowNumber;
      && 1 <= n <= |rows| && Blank(Entries(rows)[n - 1])
      && AllComplete(Entries(rows)[..n - 1])
    ensures Collect(rows).Success? ==> Collect(rows).value.entries == Entries(rows)
  {
    CollectEntriesOutcome(Entries(rows));
  }

  lemma CollectEntriesOutcome(es: seq<Entry>)
    ensures CollectEntries(es).Success? <==> 0 < |es| && AllComplete(es)
    ensures CollectEntries(es) == Failure(EmptyBatch) <==> |es| == 0
    ensures CollectEntries(es).Failure? && 0 < |es| ==>
      var n := CollectEntries(es).error.rowNumber;
      && 1 <= n <= |es| && Blank(es[n - 1])
      && AllComplete(es[..n - 1])
    ensures CollectEntries(es).Success? ==> CollectEntries(es).value.entries == es
  {
    if 0 < |es| {
      var k := FirstBlank(es, 0);
      if k < |es| {
        assert AllComplete(es[..k]);
      }
    }
  }

  /** The total copies of a table whose rows all carry valid drop-down entries is between n and 10 n. */
  lemma {:induction false} TotalCopiesBounds(rows: seq<Row>)
    requires forall i :: 0 <= i < |rows| ==> ValidRow(rows[i])
    ensures |rows| <= TotalCopies(Entries(rows)) <= CopiesEntries * |rows|
  {
    var es := Entries(rows);
    forall i | 0 <= i < |es| ensures 1 <= es[i].copies <= CopiesEntries {
      EntryAt(rows, i);
    }
    EntriesCopiesBounds(es);
  }

  lemma {:induction false} EntriesCopiesBounds(es: seq<Entry>)
    requires forall i :: 0 <= i < |es| ==> 1 <= es[i].copies <= CopiesEntries
    ensures |es| <= TotalCopies(es) <= CopiesEntries * |es|
  {
    if 0 < |es| {
      EntriesCopiesBounds(es[..|es| - 1]);
    }
  }

  /** A complete entry is passed over by the search for the first blank one. */
  lemma SkipComplete(es: seq<Entry>, i: nat)
    requires i < |es| && !Blank(es[i])
    ensures FirstBlank(es, i) == FirstBlank(es, i + 1)
  {
  }

  /** One entry more: it is appended and its copies are added. */
  lemma CollectStep(es: seq<Entry>, i: nat)
    requires i < |es|
    ensures es[..i + 1] == es[..i] + [es[i]]
    ensures TotalCopies(es[..i + 1]) == TotalCopies(es[..i]) + es[i].copies
  {
    assert es[..i + 1][..i] == es[..i];
  }

  /** The row loop of preview_batch and print_batch. */
  method CollectRows(rows: seq<Row>) returns (r: Result<Collected, BatchError>)
    ensures r == Collect(rows)
  {
    if |rows| == 0 {
      return Failure(EmptyBatch);
    }
    ghost var es := Entries(rows);
    var entries: seq<Entry> := [];
    var total := 0;
    var i := 0;
    while i < |rows|
      invariant 0 <= i <= |rows|
      invariant FirstBlank(es, 0) == FirstBlank(es, i)
      invariant entries == es[..i] && total == TotalCopies(es[..i])
    {
      var e := ToEntry(rows[i]);
      EntryAt(rows, i);
      if |e.url| == 0 || |e.text| == 0 {
        return Failure(MissingData(i + 1));
      }
      SkipComplete(es, i);
      CollectStep(es, i);
      entries := entries + [e];
      total := total + e.copies;
      i := i + 1;
    }
    assert es[..i] == es;
    return Success(Collected(entries, total));
  }

  // ---------------------------------------------------------------------------------------------
  // Stacking the preview

  datatype Stack = Stack(width: int, height: int, offsets: seq<int>)

  function SumHeights(sizes: seq<Size>): int
  {
    if |sizes| == 0 then 0 else SumHeights(sizes[..|sizes| - 1]) + sizes[|sizes| - 1].h
  }

  function MaxWidth(sizes: seq<Size>): (w: int)
    requires 0 < |sizes|
    ensures forall i :: 0 <= i < |sizes| ==> sizes[i].w <= w
    ensures exists i :: 0 <= i < |sizes| && sizes[i].w == w
  {
    if |sizes| == 1 then sizes[0].w
    else
      var rest := MaxWidth(sizes[..|sizes| - 1]);
      assert forall i :: 0 <= i < |sizes| - 1 ==> sizes[..|sizes| - 1][i] == sizes[i];
      if rest >= sizes[|sizes| - 1].w then rest else sizes[|sizes| - 1].w
  }

  /**
   * The preview canvas and the paste offsets: as wide as the widest label, as tall as all labels
   * plus a 10-pixel gap between neighbours; each label starts where the previous one ended plus
   * the gap, and the last one ends at the bottom edge. With no labels nothing is composed.
   */
  method StackPreview(sizes: seq<Size>) returns (r: Option<Stack>)
    ensures r.None? <==> |sizes| == 0
    ensures r.Some? ==>
      var s := r.value;
      && s.width == MaxWidth(sizes)
      && s.height == SumHeights(sizes) + PreviewGap * (|sizes| - 1)
      && |s.offsets| == |sizes| && s.offsets[0] == 0
      && (forall i :: 0 <= i < |sizes| ==> s.offsets[i] == SumHeights(sizes[..i]) + PreviewGap * i)
      && (forall i :: 0 <= i < |sizes| - 1 ==> s.offsets[i] + sizes[i].h + PreviewGap == s.offsets[i + 1])
      && s.offsets[|sizes| - 1] + sizes[|sizes| - 1].h == s.height
  {
    if |sizes| == 0 {
      return None;
    }
    var height := SumHeights(sizes) + (|sizes| - 1) * PreviewGap;
    var width := MaxWidth(sizes);
    var offsets: seq<int> := [];
    var y := 0;
    var i := 0;
    while i < |sizes|
      invariant 0 <= i <= |sizes| && |offsets| == i
      invariant y == SumHeights(sizes[..i]) + PreviewGap * i
      invariant forall j :: 0 <= j < i ==> offsets[j] == SumHeights(sizes[..j]) + PreviewGap * j
    {
      offsets := offsets + [y];
      assert sizes[..i + 1][..i] == sizes[..i];
      y := y + sizes[i].h + PreviewGap;
      i := i + 1;
    }
    assert sizes[..|sizes|] == sizes;
    forall i | 0 <= i < |sizes| - 1
      ensures offsets[i] + sizes[i].h + PreviewGap == offsets[i + 1]
    {
      assert sizes[..i + 1][..i] == sizes[..i];
    }
    assert sizes[..|sizes| - 1] == sizes[..|sizes|][..|sizes| - 1];
    return Some(Stack(width, height, offsets));
  }

  /** Labels of one tape class all share its height, so the preview is n heights plus n - 1 gaps. */
  lemma {:induction false} UniformStackHeight(sizes: seq<Size>, h: int)
    requires forall i :: 0 <= i < |sizes| ==> sizes[i].h == h
    ensures SumHeights(sizes) == |sizes| * h
  {
    if 0 < |sizes| {
      UniformStackHeight(sizes[..|sizes| - 1], h);
    }
  }

  /** Labels with non-negative heights never overlap and all lie on the preview canvas. */
  lemma {:induction false} StackedLabelsDisjoint(sizes: seq<Size>, i: nat, j: nat)
    requires forall k :: 0 <= k < |sizes| ==> 0 <= sizes[k].h
    requires i < j < |sizes|
    ensures SumHeights(sizes[..i]) + PreviewGap * i + sizes[i].h < SumHeights(sizes[..j]) + PreviewGap * j
    decreases j - i
  {
    if i + 1 < j {
      StackedLabelsDisjoint(sizes, i + 1, j);
      assert sizes[..i + 1][..i] == sizes[..i];
      assert 0 <= sizes[i + 1].h;
    } else {
      assert sizes[..i + 1][..i] == sizes[..i];
    }
  }
}
