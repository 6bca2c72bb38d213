/** The work-item table: the spreadsheet of stores, read once into a frame of
    rows. Rows whose status cell is empty or "failed" are pending; the driver
    takes the first pending row and reports the outcome back by business name.
    The file itself (reading and writing the workbook) is outside the model:
    reading is the pair (columns, rows) it produced, writing is a flag saying
    whether the save succeeded. */
module Excel {
  import opened Common

  /** A cell as pandas delivers it: an empty cell is NaN, anything else text. */
  datatype Cell = Nan | Text(s: string)

  type Row = map<string, Cell>

  const RequiredColumns: seq<string> := [
    "adspower_name", "email", "password", "recovery_email",
    "business_name", "first_name", "last_name", "birthday",
    "ssn", "phone", "address", "city", "state", "zip_code",
    "ein", "business_phone", "business_address", "business_city",
    "business_state", "business_zip", "2fa_code", "status", "notes"
  ]

  datatype Loaded = Loaded(rows: seq<Row>) | MissingColumns(missing: set<string>)

  /** The column check of `read_excel`: the table is accepted only when every
      required column is present; otherwise the missing ones are reported. */
  function ReadExcel(columns: set<string>, rows: seq<Row>): (r: Loaded)
    ensures r.Loaded? <==> forall c :: c in RequiredColumns ==> c in columns
    ensures r.Loaded? ==> r.rows == rows
    ensures r.MissingColumns? ==> r.missing != {}
    ensures r.MissingColumns? ==> forall c :: c in r.missing <==> c in RequiredColumns && c !in columns
  {
    var missing := set c | c in RequiredColumns && c !in columns;
    assert missing != {} <== exists c :: c in RequiredColumns && c !in columns by {
      if exists c :: c in RequiredColumns && c !in columns {
        var c :| c in RequiredColumns && c !in columns;
        assert c in missing;
      }
    }
    if missing == {} then Loaded(rows)
    else MissingColumns(missing)
  }

  /** Every row of a frame has exactly the frame's columns. */
  predicate Rectangular(columns: set<string>, rows: seq<Row>) {
    forall i :: 0 <= i < |rows| ==> rows[i].Keys == columns
  }

  /** A row still to be processed: status is NaN or "failed". */
  predicate Pending(row: Row) {
    "status" in row && (row["status"] == Nan || row["status"] == Text("failed"))
  }

  /** Position of the first pending row, in table order. */
  function FirstPending(rows: seq<Row>): (r: Option<nat>)
    ensures r.Some? ==> r.value < |rows| && Pending(rows[r.value])
    ensures r.Some? ==> forall j :: 0 <= j < r.value ==> !Pending(rows[j])
    ensures r.None? ==> forall j :: 0 <= j < |rows| ==> !Pending(rows[j])
  {
    if rows == [] then None
    else if Pending(rows[0]) then Some(0)
    else match FirstPending(rows[1..])
      case None => None
      case Some(k) => Some(k + 1)
  }

  /** The rows `update_store_status` selects: business name equal to `name`
      (a NaN name or NaN cell never compares equal). */
  predicate NameIs(row: Row, name: Cell) {
    name.Text? && "business_name" in row && row["business_name"] == name
  }

  /** One row after a status report: status always set, notes only when the
      new notes are non-empty. */
  function Reported(row: Row, status: string, notes: string): (r: Row)
    ensures r.Keys == row.Keys + {"status"} + (if notes != "" then {"notes"} else {})
    ensures r["status"] == Text(status)
    ensures notes != "" ==> r["notes"] == Text(notes)
    ensures forall k :: k in row && k != "status" && (k != "notes" || notes == "") ==> r[k] == row[k]
  {
    var withStatus := row["status" := Text(status)];
    if notes != "" then withStatus["notes" := Text(notes)] else withStatus
  }

  /** The frame after the masked update of `update_store_status`: EVERY row
      carrying the name gets the status (and the notes when non-empty), not
      only the first; the other rows are kept. */
  function MaskUpdate(rows: seq<Row>, name: Cell, status: string, notes: string): (r: seq<Row>)
    ensures |r| == |rows|
    ensures forall i :: 0 <= i < |rows| && NameIs(rows[i], name) ==>
              "status" in r[i] && r[i]["status"] == Text(status)
              && (notes != "" ==> "notes" in r[i] && r[i]["notes"] == Text(notes))
    ensures forall i :: 0 <= i < |rows| && !NameIs(rows[i], name) ==> r[i] == rows[i]
  {
    seq(|rows|, i requires 0 <= i < |rows| =>
      if NameIs(rows[i], name) then Reported(rows[i], status, notes) else rows[i])
  }

  predicate AnyNamed(rows: seq<Row>, name: Cell) {
    exists i :: 0 <= i < |rows| && NameIs(rows[i], name)
  }

  /** The table after `update_store_status`: unchanged when no row carries the
      name, otherwise the masked update. */
  function AfterReport(rows: seq<Row>, name: Cell, status: string, notes: string): seq<Row> {
    if AnyNamed(rows, name) then MaskUpdate(rows, name, status, notes) else rows
  }

  /** The pandas frame: a table of rows over a fixed set of columns. */
  class Frame {
    var rows: seq<Row>
    const columns: set<string>

    ghost predicate Valid()
      reads this
    {
      Rectangular(columns, rows) && "status" in columns && "notes" in columns
    }

    constructor (columns: set<string>, rows: seq<Row>)
      requires Rectangular(columns, rows) && "status" in columns && "notes" in columns
      ensures Valid() && this.columns == columns && this.rows == rows
    {
      this.columns := columns;
      this.rows := rows;
    }
  }

  class ExcelHandler {
    const df: Frame

    ghost predicate Valid()
      reads this, df
    {
      df.Valid() && forall c :: c in RequiredColumns ==> c in df.columns
    }

    /** Construction reads the workbook; `read_excel` raises when a required
        column is missing, so a handler exists only for an accepted table. */
    constructor (columns: set<string>, rows: seq<Row>)
      requires ReadExcel(columns, rows).Loaded?
      requires Rectangular(columns, rows)
      ensures Valid() && fresh(df) && df.rows == rows && df.columns == columns
    {
      assert "status" == RequiredColumns[21] && "notes" == RequiredColumns[22];
      df := new Frame(columns, rows);
    }

    /** `get_next_store`: the first pending row, or None when none is left. */
    function GetNextStore(): (r: Option<Row>)
      reads this, df
      ensures r.Some? ==> Pending(r.value) && r.value["status"] != Text("success")
      ensures r.Some? ==> exists i :: 0 <= i < |df.rows| && df.rows[i] == r.value
                            && forall j :: 0 <= j < i ==> !Pending(df.rows[j])
      ensures r.None? <==> forall j :: 0 <= j < |df.rows| ==> !Pending(df.rows[j])
    {
      match FirstPending(df.rows)
      case None => None
      case Some(k) => Some(df.rows[k])
    }

    /** `update_store_status`: sets status (and non-empty notes) on every row
        whose business name matches, then saves. No match: False, nothing
        changes. The frame is changed before the save, so a failed save
        returns False with the new values in place. */
    method UpdateStoreStatus(name: Cell, status: string, notes: string, saved: bool) returns (ok: bool)
      requires Valid()
      modifies df
      ensures Valid()
      ensures df.rows == AfterReport(old(df.rows), name, status, notes)
      ensures ok <==> AnyNamed(old(df.rows), name) && saved
    {
      var i := 0;
      var found := false;
      while i < |df.rows| && !found
        invariant 0 <= i <= |df.rows|
        invariant found <==> exists j :: 0 <= j < i && NameIs(df.rows[j], name)
      {
        found := NameIs(df.rows[i], name);
        i := i + 1;
      }
      if !found {
        return false;
      }
      ghost var before := df.rows;
      i := 0;
      while i < |df.rows|
        invariant 0 <= i <= |df.rows| == |before|
        invariant forall j :: 0 <= j < i ==> df.rows[j] == MaskUpdate(before, name, status, notes)[j]
        invariant forall j :: i <= j < |df.rows| ==> df.rows[j] == before[j]
      {
        if NameIs(df.rows[i], name) {
          df.rows := df.rows[i := Reported(df.rows[i], status, notes)];
        }
        i := i + 1;
      }
      ok := saved;
    }

    /** `update_status`: sets status (and non-empty notes) of the one row at
        `index` of the frame it is given, then saves; a failed save raises. */
    method UpdateStatus(frame: Frame, index: nat, status: string, notes: string, saved: bool)
      returns (raised: bool)
      requires frame.Valid() && index < |frame.rows|
      modifies frame
      ensures frame.Valid()
      ensures frame.rows == old(frame.rows)[index := Reported(old(frame.rows)[index], status, notes)]
      ensures raised == !saved
    {
      frame.rows := frame.rows[index := Reported(frame.rows[index], status, notes)];
      raised := !saved;
    }
  }

  /** After a row is reported as "success", no row of that name is pending. */
  lemma SuccessLeavesQueue(rows: seq<Row>, name: Cell, notes: string, i: nat)
    requires i < |rows| && NameIs(rows[i], name)
    ensures !Pending(MaskUpdate(rows, name, "success", notes)[i])
  {
  }

  /** A row reported as "failed" is pending again. */
  lemma FailedRequeues(rows: seq<Row>, name: Cell, notes: string, i: nat)
    requires i < |rows| && NameIs(rows[i], name)
    ensures Pending(MaskUpdate(rows, name, "failed", notes)[i])
  {
  }

  /** Reporting "success" for the store `get_next_store` handed out moves the
      queue forward: the next pending row, if any, lies strictly later. */
  lemma {:induction false} SuccessAdvancesQueue(rows: seq<Row>, name: Cell, notes: string)
    requires FirstPending(rows).Some?
    requires NameIs(rows[FirstPending(rows).value], name)
    ensures var next := FirstPending(MaskUpdate(rows, name, "success", notes));
            next.None? || next.value > FirstPending(rows).value
  {
    var k := FirstPending(rows).value;
    var after := MaskUpdate(rows, name, "success", notes);
    forall j | 0 <= j <= k
      ensures !Pending(after[j])
    {
      if j < k {
        assert !Pending(rows[j]);
        if NameIs(rows[j], name) {
          assert after[j]["status"] == Text("success");
        } else {
          assert after[j] == rows[j];
        }
      } else {
        assert after[j]["status"] == Text("success");
      }
    }
  }

  /** Rows whose name does not match, and columns other than status and notes,
      are untouched by a report. */
  lemma ReportTouchesOnlyNamedRows(rows: seq<Row>, name: Cell, status: string, notes: string, i: nat, col: string)
    requires i < |rows| && col in rows[i]
    requires !NameIs(rows[i], name) || (col != "status" && col != "notes")
    ensures col in MaskUpdate(rows, name, status, notes)[i]
    ensures MaskUpdate(rows, name, status, notes)[i][col] == rows[i][col]
  {
  }
}
