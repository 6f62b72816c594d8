/** The unified ledger and how it is loaded (`load_and_clean_data`,
    main.py:124-139): one table per configured month sheet, concatenated
    in the configured order, dates parsed, and every row labelled with the
    month name of its own date. */
module Ledger {
  import opened Wrappers
  import opened Seqs
  import opened Calendar

  /** One sheet row: the six columns Date, Amount, Description, Paid To,
      Category and Method. Amounts are in cents. */
  datatype Record = Record(
    date: Date,
    amount: int,
    description: string,
    paidTo: string,
    category: string,
    paymentMethod: string)

  /** A ledger row: a record together with its `Month` label. */
  datatype Row = Row(rec: Record, month: string)

  /** Why a load fails: a configured sheet does not exist, or a date cell
      does not parse (the row's index in the concatenated table). */
  datatype LoadError = SheetNotFound(sheet: string) | UnparseableDate(index: nat)

  /** The sheets read, in this order (main.py:127). */
  const ConfiguredMonths: seq<string> := ["January", "February", "March"]

  /** Sum of the `Amount` column. */
  function SumAmounts(rows: seq<Row>): int {
    if |rows| == 0 then 0 else rows[0].rec.amount + SumAmounts(rows[1..])
  }

  lemma {:induction false} SumAppend(a: seq<Row>, b: seq<Row>)
    ensures SumAmounts(a + b) == SumAmounts(a) + SumAmounts(b)
  {
    if |a| == 0 {
      assert a + b == b;
    } else {
      assert (a + b)[1..] == a[1..] + b;
      SumAppend(a[1..], b);
    }
  }

  /** The records of a ledger, without their labels. */
  function Records(ledger: seq<Row>): seq<Record> {
    Map(ledger, (r: Row) => r.rec)
  }

  /** What loading guarantees of every row: a real date, and the label
      `strftime('%B')` gives that date. */
  predicate WellFormed(ledger: seq<Row>) {
    forall i :: 0 <= i < |ledger| ==>
      ValidDate(ledger[i].rec.date) && ledger[i].month == MonthName(ledger[i].rec.date.month)
  }

  /** Reads the named sheets in order; the first missing one fails the read. */
  function ReadSheets(sheets: map<string, seq<Record>>, names: seq<string>)
    : (r: Result<seq<seq<Record>>, LoadError>)
    ensures r.Success? <==> forall k :: 0 <= k < |names| ==> names[k] in sheets
    ensures r.Success? ==>
      |r.value| == |names| && forall k :: 0 <= k < |names| ==> r.value[k] == sheets[names[k]]
    ensures r.Failure? ==>
      exists k :: 0 <= k < |names| && names[k] !in sheets && r.error == SheetNotFound(names[k])
        && forall j :: 0 <= j < k ==> names[j] in sheets
  {
    if |names| == 0 then Success([])
    else if names[0] !in sheets then Failure(SheetNotFound(names[0]))
    else
      match ReadSheets(sheets, names[1..])
      case Success(tables) => Success([sheets[names[0]]] + tables)
      case Failure(e) =>
        var k :| 0 <= k < |names| - 1 && names[1..][k] !in sheets && e == SheetNotFound(names[1..][k])
          && forall j :: 0 <= j < k ==> names[1..][j] in sheets;
        assert names[k + 1] !in sheets;
        Failure(e)
  }

  /** The tables one after another, renumbered from zero (main.py:131):
      every record of every table is kept, and nothing else is added. */
  function Concat(tables: seq<seq<Record>>): (all: seq<Record>)
    ensures forall t :: t in tables ==> multiset(t) <= multiset(all)
    ensures forall x :: x in all ==> exists t :: t in tables && x in t
  {
    if |tables| == 0 then []
    else
      var rest := Concat(tables[1..]);
      assert multiset(tables[0] + rest) == multiset(tables[0]) + multiset(rest);
      assert forall t :: t in tables ==> t == tables[0] || t in tables[1..] by {
        assert tables == [tables[0]] + tables[1..];
      }
      assert forall t :: t in tables[1..] ==> t in tables;
      tables[0] + rest
  }

  /** A single table concatenated is that table, record for record. */
  lemma ConcatOne(t: seq<Record>)
    ensures Concat([t]) == t
  {
  }

  /** The number of records in some tables, added table by table. */
  function TotalLength(tables: seq<seq<Record>>): nat {
    if |tables| == 0 then 0 else |tables[0]| + TotalLength(tables[1..])
  }

  /** Concatenation neither adds nor drops a record: its length is the sum
      of the tables' lengths. */
  lemma {:induction false} ConcatLength(tables: seq<seq<Record>>)
    ensures |Concat(tables)| == TotalLength(tables)
    decreases |tables|
  {
    if |tables| > 0 {
      ConcatLength(tables[1..]);
    }
  }

  /** Concatenating two lists of tables is concatenating their
      concatenations: the records keep the order of their tables. */
  lemma {:induction false} ConcatAppend(a: seq<seq<Record>>, b: seq<seq<Record>>)
    ensures Concat(a + b) == Concat(a) + Concat(b)
    decreases |a|
  {
    if |a| > 0 {
      assert (a + b)[1..] == a[1..] + b;
      ConcatAppend(a[1..], b);
    } else {
      assert a + b == b;
    }
  }

  /** The index of the first record whose date does not parse, if any. */
  function FirstUnparseable(recs: seq<Record>): (r: Option<nat>)
    ensures r.None? <==> forall i :: 0 <= i < |recs| ==> ValidDate(recs[i].date)
    ensures r.Some? ==>
      r.value < |recs| && !ValidDate(recs[r.value].date)
      && forall i :: 0 <= i < r.value ==> ValidDate(recs[i].date)
  {
    if |recs| == 0 then None
    else if !ValidDate(recs[0].date) then Some(0)
    else
      match FirstUnparseable(recs[1..])
      case None => None
      case Some(i) => Some(i + 1)
  }

  /** Adds the `Month` column: each row gets the name of its own date's month. */
  function Label(recs: seq<Record>): (ledger: seq<Row>)
    requires forall i :: 0 <= i < |recs| ==> ValidDate(recs[i].date)
    ensures Records(ledger) == recs
    ensures WellFormed(ledger)
  {
    seq(|recs|, i requires 0 <= i < |recs| && ValidDate(recs[i].date) => Row(recs[i], MonthName(recs[i].date.month)))
  }

  /** Every configured sheet exists. */
  predicate AllSheetsPresent(sheets: map<string, seq<Record>>) {
    forall k :: 0 <= k < |ConfiguredMonths| ==> ConfiguredMonths[k] in sheets
  }

  /** The concatenation of the configured sheets, in configured order. */
  function SheetRecords(sheets: map<string, seq<Record>>): seq<Record>
    requires AllSheetsPresent(sheets)
  {
    Concat(seq(|ConfiguredMonths|, k requires 0 <= k < |ConfiguredMonths| => sheets[ConfiguredMonths[k]]))
  }

  /** `load_and_clean_data`: read every configured sheet, concatenate,
      parse the dates (failing on the first that does not parse) and
      label every row with its own month. */
  function Load(sheets: map<string, seq<Record>>): (r: Result<seq<Row>, LoadError>)
    ensures (r.Failure? && r.error.SheetNotFound?) <==> !AllSheetsPresent(sheets)
    ensures r.Failure? && r.error.SheetNotFound? ==> r.error.sheet !in sheets
    ensures AllSheetsPresent(sheets) ==>
      (r.Success? <==> forall i :: 0 <= i < |SheetRecords(sheets)| ==> ValidDate(SheetRecords(sheets)[i].date))
    ensures r.Failure? && r.error.UnparseableDate? ==>
      AllSheetsPresent(sheets) && r.error.index < |SheetRecords(sheets)|
      && !ValidDate(SheetRecords(sheets)[r.error.index].date)
    ensures r.Success? ==>
      AllSheetsPresent(sheets) && WellFormed(r.value) && Records(r.value) == SheetRecords(sheets)
  {
    match ReadSheets(sheets, ConfiguredMonths)
    case Failure(e) => Failure(e)
    case Success(tables) =>
      assert tables == seq(|ConfiguredMonths|, k requires 0 <= k < |ConfiguredMonths| => sheets[ConfiguredMonths[k]]);
      var all := Concat(tables);
      assert all == SheetRecords(sheets);
      match FirstUnparseable(all)
      case Some(i) =>
        assert !ValidDate(all[i].date);
        Failure(UnparseableDate(i))
      case None => Success(Label(all))
  }

  /** The ledger holds the January, February and March sheets in that
      order, every row kept: its length is the sum of the sheet lengths. */
  lemma LoadConcatenatesInOrder(sheets: map<string, seq<Record>>)
    requires Load(sheets).Success?
    ensures "January" in sheets && "February" in sheets && "March" in sheets
    ensures Records(Load(sheets).value) == sheets["January"] + sheets["February"] + sheets["March"]
    ensures |Load(sheets).value| == |sheets["January"]| + |sheets["February"]| + |sheets["March"]|
  {
    assert ConfiguredMonths[0] == "January" && ConfiguredMonths[1] == "February" && ConfiguredMonths[2] == "March";
    var tables := seq(|ConfiguredMonths|, k requires 0 <= k < |ConfiguredMonths| => sheets[ConfiguredMonths[k]]);
    assert tables[1..][1..][1..] == [];
    assert Concat(tables[1..][1..]) == sheets["March"];
    assert Concat(tables[1..]) == sheets["February"] + sheets["March"];
    assert Concat(tables) == sheets["January"] + sheets["February"] + sheets["March"];
    var l := Load(sheets).value;
    assert |Records(l)| == |l|;
  }

  /** A record stored in the February sheet but dated in January is
      labelled "January": the label comes from the date, not the sheet. */
  lemma LabelComesFromDate(sheets: map<string, seq<Record>>, j: nat)
    requires Load(sheets).Success?
    requires "February" in sheets && j < |sheets["February"]|
    requires sheets["February"][j].date.month == 1
    ensures |sheets["January"]| + j < |Load(sheets).value|
    ensures Load(sheets).value[|sheets["January"]| + j] ==
      Row(sheets["February"][j], "January")
  {
    LoadConcatenatesInOrder(sheets);
    var l := Load(sheets).value;
    var k := |sheets["January"]| + j;
    assert Records(l)[k] == sheets["February"][j];
    assert l[k].rec == sheets["February"][j];
  }
}
