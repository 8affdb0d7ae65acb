/**
  Calendar cells: a map from a date key to the record of attributes set on that date, and the
  field-level merge that applies a loaded document's cells on top of the current ones.
 */
module Cells {

  /** A JSON scalar held by a cell attribute. */
  datatype Value = Null | Bool(b: bool) | Number(n: int) | Text(s: string)

  /** The attributes of one date. */
  type Record = map<string, Value>

  /** Date key to attributes (`dateCells`). */
  type DateCells = map<string, Record>

  /** `{ ...existing, ...incoming }`: the incoming fields win, the other existing fields survive. */
  function Overlay(existing: Record, incoming: Record): (r: Record)
    ensures r.Keys == existing.Keys + incoming.Keys
    ensures forall f :: f in incoming ==> r[f] == incoming[f]
    ensures forall f :: f in existing && f !in incoming ==> r[f] == existing[f]
  {
    existing + incoming
  }

  /** `newDateCells.get(dateKey) || {}` */
  function Existing(cells: DateCells, key: string): Record {
    if key in cells then cells[key] else map[]
  }

  /**
    The cells after a load: every loaded date holds its current record (empty if none)
    overlaid by the loaded record; every other current date is left as it was.
   */
  function Merged(current: DateCells, loaded: DateCells): (r: DateCells)
    ensures r.Keys == current.Keys + loaded.Keys
    ensures forall k :: k in loaded ==> r[k] == Overlay(Existing(current, k), loaded[k])
    ensures forall k :: k in current && k !in loaded ==> r[k] == current[k]
    ensures forall k :: k in loaded && k !in current ==> r[k] == loaded[k]
  {
    assert forall k :: k in loaded && k !in current ==> Overlay(Existing(current, k), loaded[k]) == loaded[k] by {
      forall k | k in loaded && k !in current
        ensures Overlay(Existing(current, k), loaded[k]) == loaded[k]
      {
        OverlayOnEmpty(loaded[k]);
      }
    }
    current + map k | k in loaded :: Overlay(Existing(current, k), loaded[k])
  }

  /** Overlaying a record on no record gives that record: a new date takes the loaded record as is. */
  lemma OverlayOnEmpty(incoming: Record)
    ensures Overlay(map[], incoming) == incoming
  {
  }

  /**
    The merge loop of the load handler: copies the current cells and, for each loaded entry,
    sets the date to the existing record overlaid by the loaded one.
   */
  method MergeDateCells(current: DateCells, loaded: DateCells) returns (merged: DateCells)
    ensures merged == Merged(current, loaded)
  {
    merged := current;
    var done: set<string> := {};
    while done != loaded.Keys
      invariant done <= loaded.Keys
      invariant merged.Keys == current.Keys + done
      invariant forall k :: k in merged && k !in done ==> merged[k] == current[k]
      invariant forall k :: k in done ==> merged[k] == Overlay(Existing(current, k), loaded[k])
      decreases loaded.Keys - done
    {
      assert loaded.Keys - done != {};
      var dateKey :| dateKey in loaded.Keys - done;
      var existing := Existing(merged, dateKey);
      assert existing == Existing(current, dateKey);
      merged := merged[dateKey := Overlay(existing, loaded[dateKey])];
      done := done + {dateKey};
    }
    MergedCharacterized(current, loaded, merged);
  }

  /** Any cells with the merge's keys and per-date records are the merge. */
  lemma MergedCharacterized(current: DateCells, loaded: DateCells, cells: DateCells)
    requires cells.Keys == current.Keys + loaded.Keys
    requires forall k :: k in loaded ==> cells[k] == Overlay(Existing(current, k), loaded[k])
    requires forall k :: k in current && k !in loaded ==> cells[k] == current[k]
    ensures cells == Merged(current, loaded)
  {
    var spec := Merged(current, loaded);
    assert forall k :: k in cells ==> cells[k] == spec[k];
  }

  /** A merge never loses a date or a field: it only adds and overwrites. */
  lemma MergeKeepsFields(current: DateCells, loaded: DateCells, k: string, f: string)
    requires k in current && f in current[k]
    ensures k in Merged(current, loaded) && f in Merged(current, loaded)[k]
    ensures f !in Existing(loaded, k) ==> Merged(current, loaded)[k][f] == current[k][f]
  {
  }

  /** Loading the same cells a second time changes nothing more. */
  lemma MergeIdempotent(current: DateCells, loaded: DateCells)
    ensures Merged(Merged(current, loaded), loaded) == Merged(current, loaded)
  {
    var once := Merged(current, loaded);
    var twice := Merged(once, loaded);
    forall k | k in loaded
      ensures twice[k] == once[k]
    {
      assert Overlay(Overlay(Existing(current, k), loaded[k]), loaded[k]) == Overlay(Existing(current, k), loaded[k]);
    }
  }

  /** Loading the cells one holds already changes nothing. */
  lemma MergeSelf(cells: DateCells)
    ensures Merged(cells, cells) == cells
  {
    var r := Merged(cells, cells);
    forall k | k in cells
      ensures r[k] == cells[k]
    {
      assert Overlay(cells[k], cells[k]) == cells[k];
    }
  }

  /** A document with no cells leaves the current cells as they are. */
  lemma MergeNothing(current: DateCells)
    ensures Merged(current, map[]) == current
  {
  }

  /**
    Local `{"2024-01-01": {note: "a"}, "2024-02-01": {note: "b"}}` loaded with
    `{"2024-01-01": {color: "red"}}` gives `{"2024-01-01": {note: "a", color: "red"}, "2024-02-01": {note: "b"}}`.
   */
  lemma MergeExample()
    ensures Merged(
              map["2024-01-01" := map["note" := Text("a")], "2024-02-01" := map["note" := Text("b")]],
              map["2024-01-01" := map["color" := Text("red")]])
         == map["2024-01-01" := map["note" := Text("a"), "color" := Text("red")],
                "2024-02-01" := map["note" := Text("b")]]
  {
    var current := map["2024-01-01" := map["note" := Text("a")], "2024-02-01" := map["note" := Text("b")]];
    var loaded := map["2024-01-01" := map["color" := Text("red")]];
    var r := Merged(current, loaded);
    assert r["2024-01-01"] == map["note" := Text("a"), "color" := Text("red")];
  }
}
