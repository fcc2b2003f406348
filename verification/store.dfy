/**
 The registration table and the persisted baseline of already-seen users.

 A query result and the baseline file both hold rows of the same six-column
 shape. The baseline file is either missing or holds one table; reading it
 back returns exactly what was written (type coercion by the CSV reader is
 not modelled). Membership is decided on the `uid` column only.
 */
module Store {

  /** One registration record: the six columns of the warehouse query.
      `regDate` is the registration instant in milliseconds. */
  datatype Row = Row(
    uid: string,
    cid: string,
    affiliateId: string,
    utmCampaign: string,
    regDate: int,
    device: string)

  /** A table with named columns, as held by a data frame or a CSV file. */
  datatype Table = Table(columns: seq<string>, rows: seq<Row>)

  /** The baseline file on disk. */
  datatype FileState = Absent | Present(table: Table)

  /** The column names the working set is labelled with and saved under. */
  const RegsColumns: seq<string> := ["uid", "cid", "affiliate_id", "utm_campaign", "reg_date", "device"]

  /** The set of values of the `uid` column. */
  function UidColumn(rows: seq<Row>): set<string> {
    set r | r in rows :: r.uid
  }

  /** Number of cells of a query result laid out as an array of six-column rows. */
  function QuerySize(result: seq<Row>): nat {
    |result| * |RegsColumns|
  }

  /** Whether the warehouse returned anything: an empty result is reported as
      `false` (the exception written after that `return` is never raised). */
  function CheckQueryResult(result: seq<Row>): (ok: bool)
    ensures ok <==> result != []
  {
    if QuerySize(result) == 0 then false else true
  }

  /** The rows whose `uid` equals `uid`, in table order (a boolean-mask filter). */
  function Select(rows: seq<Row>, uid: string): (sel: seq<Row>)
    ensures forall r :: r in sel <==> r in rows && r.uid == uid
    ensures sel != [] <==> uid in UidColumn(rows)
    ensures |sel| <= |rows|
  {
    if rows == [] then []
    else if rows[0].uid == uid then [rows[0]] + Select(rows[1..], uid)
    else Select(rows[1..], uid)
  }

  /** The first selected row, the one whose `reg_date` the run reads, is the
      first row of the table with that id. */
  lemma {:induction false} SelectFirst(rows: seq<Row>, uid: string)
    ensures var sel := Select(rows, uid);
      sel != [] ==>
        exists j :: 0 <= j < |rows| && rows[j] == sel[0] && forall k :: 0 <= k < j ==> rows[k].uid != uid
  {
    if rows != [] && rows[0].uid != uid {
      SelectFirst(rows[1..], uid);
      var sel := Select(rows, uid);
      if sel != [] {
        var j :| 0 <= j < |rows[1..]| && rows[1..][j] == sel[0] && forall k :: 0 <= k < j ==> rows[1..][k].uid != uid;
        assert rows[j + 1] == sel[0];
        assert forall k :: 0 <= k < j + 1 ==> rows[k].uid != uid by {
          forall k | 0 <= k < j + 1
            ensures rows[k].uid != uid
          {
            if k > 0 {
              assert rows[k] == rows[1..][k - 1];
            }
          }
        }
      }
    }
  }

  /** The selection keeps every row with that id as often as the table holds
      it, and no other row. */
  lemma {:induction false} SelectCounts(rows: seq<Row>, uid: string)
    ensures forall r :: multiset(Select(rows, uid))[r] == if r.uid == uid then multiset(rows)[r] else 0
  {
    if rows != [] {
      SelectCounts(rows[1..], uid);
      assert rows == [rows[0]] + rows[1..];
      assert multiset(rows) == multiset{rows[0]} + multiset(rows[1..]);
    }
  }

  /** Selection keeps table order: selecting from two stacked tables is the
      selection from the first followed by the selection from the second.
      With the one-row case this fixes the selection row by row. */
  lemma {:induction false} SelectAppend(a: seq<Row>, b: seq<Row>, uid: string)
    ensures Select(a + b, uid) == Select(a, uid) + Select(b, uid)
  {
    if a == [] {
      assert a + b == b;
    } else {
      assert (a + b)[0] == a[0];
      assert (a + b)[1..] == a[1..] + b;
      SelectAppend(a[1..], b, uid);
    }
  }

  /** The outcome of the per-user dedup check: either the `uid` column lookup
      fails, or a verdict together with the file state left behind. */
  datatype CheckOutcome = KeyError(column: string) | Checked(isNew: bool, file: FileState)

  /**
   Decides whether `userId` is new with respect to `userbase`. For a new user
   the userbase is written to the baseline file; the filtered rows of
   `currentUsers` are appended to a copy that is thrown away, so the file gets
   the userbase as it was and the user is never recorded by this call.
   */
  method CheckUser(userId: string, userbase: Table, currentUsers: Table, file: FileState)
    returns (r: CheckOutcome)
    ensures r.KeyError? <==> "uid" !in userbase.columns
    ensures r.KeyError? ==> r.column == "uid"
    ensures r.Checked? ==> (r.isNew <==> userId !in UidColumn(userbase.rows))
    ensures r.Checked? && !r.isNew ==> r.file == file
    ensures r.Checked? && r.isNew ==> r.file == Present(userbase)
    ensures r.Checked? && r.isNew ==> userId !in UidColumn(r.file.table.rows)
  {
    if "uid" !in userbase.columns {
      return KeyError("uid");
    }
    var found := false;
    var i := 0;
    while i < |userbase.rows|
      invariant 0 <= i <= |userbase.rows|
      invariant found <==> exists j :: 0 <= j < i && userbase.rows[j].uid == userId
    {
      if userbase.rows[i].uid == userId {
        found := true;
      }
      i := i + 1;
    }
    if found {
      return Checked(false, file);
    }
    // The append result is discarded; only the unchanged userbase is written.
    return Checked(true, Present(userbase));
  }

  /** Reads the baseline; a missing file is first created holding an empty
      table with the given columns, then read back. Returns the baseline read
      and the file state afterwards. */
  function LoadBaseline(file: FileState, columns: seq<string>): (res: (Table, FileState))
    ensures res.1 == Present(res.0)
    ensures file.Present? ==> res.1 == file
    ensures file.Absent? ==> res.0 == Table(columns, [])
    ensures file.Absent? ==> UidColumn(res.0.rows) == {}
  {
    match file
    case Present(t) => (t, file)
    case Absent => (Table(columns, []), Present(Table(columns, [])))
  }

  /** Overwrites the baseline file with a query result under the given column
      names. Reading it back yields the same table and the same identifiers. */
  function SaveQuery(result: seq<Row>, columns: seq<string>): (file: FileState)
    ensures forall cols :: LoadBaseline(file, cols).0 == Table(columns, result)
    ensures forall cols :: UidColumn(LoadBaseline(file, cols).0.rows) == UidColumn(result)
  {
    Present(Table(columns, result))
  }

  /** The values of the `cid` column of some rows. */
  function CidColumn(rows: seq<Row>): seq<string> {
    seq(|rows|, i requires 0 <= i < |rows| => rows[i].cid)
  }

  /** The values of the `affiliate_id` column of some rows. */
  function AffiliateColumn(rows: seq<Row>): seq<string> {
    seq(|rows|, i requires 0 <= i < |rows| => rows[i].affiliateId)
  }

  /** The values of the `utm_campaign` column of some rows. */
  function CampaignColumn(rows: seq<Row>): seq<string> {
    seq(|rows|, i requires 0 <= i < |rows| => rows[i].utmCampaign)
  }
}
