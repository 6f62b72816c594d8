/** One run of the dashboard (`main`, main.py:6-22, with the branches of
    `display_spending_breakdown`, main.py:290-340): load the ledger, compute
    the balances, work out the available months and the selection, and
    decide what the spending section shows. Rendering is left to the page. */
module Dashboard {
  import opened Wrappers
  import opened Calendar
  import opened Ledger
  import opened LiquidBalances
  import opened SpendingBreakdown
  import opened MonthSelector

  /** What the spending section shows: the "no months" warning, the "no
      spending data" warning for a month, or the breakdown table and chart. */
  datatype SpendingView =
    | NoMonthsAvailable
    | NoSpending(month: string)
    | Spending(month: string, lines: seq<CategorySpend>)

  /** Everything one run computes for the page. */
  datatype Page = Page(
    balances: Balances,
    available: seq<string>,
    selection: Selection,
    spending: SpendingView)

  /** `if selected_month:` is false for `None` and for the empty string. */
  predicate HasMonth(s: Selection) {
    s.Chosen? && s.month != ""
  }

  /** The branches of main.py:301-338. */
  function SpendingSection(ledger: seq<Row>, selection: Selection): (v: SpendingView)
    ensures v.NoMonthsAvailable? <==> !HasMonth(selection)
    ensures v.NoSpending? <==>
      HasMonth(selection) && SpendCategories(ledger, selection.month) == {}
    ensures v.NoSpending? ==> v.month == selection.month
    ensures v.Spending? ==>
      v.month == selection.month && |v.lines| > 0 && IsBreakdownOf(ledger, v.month, v.lines)
  {
    if !HasMonth(selection) then NoMonthsAvailable
    else
      var b := Breakdown(ledger, selection.month);
      assert |b| == 0 <==> Categories(b) == {} by {
        if |b| > 0 { assert b[0].category in Categories(b); }
      }
      if |b| == 0 then NoSpending(selection.month) else Spending(selection.month, b)
  }

  /** `main`: a failed load fails the whole run; otherwise every section is
      computed from the one ledger. `stored` is the selection the session
      kept from an earlier run, `pressed` the month button clicked now. */
  function Run(sheets: map<string, seq<Record>>, stored: Option<Selection>, pressed: Option<string>)
    : (r: Result<Page, LoadError>)
    ensures r.Failure? <==> Load(sheets).Failure?
    ensures r.Failure? ==> r.error == Load(sheets).error
    ensures r.Success? ==> r.value.balances == Calculate(Load(sheets).value)
    ensures r.Success? ==> r.value.available == AvailableMonths(Load(sheets).value)
    ensures r.Success? ==> r.value.selection == Select(stored, r.value.available, pressed)
    ensures r.Success? ==> r.value.spending == SpendingSection(Load(sheets).value, r.value.selection)
    ensures r.Success? ==>
      (r.value.balances.total == r.value.balances.cash + r.value.balances.debit + r.value.balances.savings)
    ensures r.Success? && stored.None? ==>
      (r.value.spending.NoMonthsAvailable? <==> |Load(sheets).value| == 0)
    ensures r.Success? && stored.None? && r.value.selection.Chosen? ==>
      r.value.selection.month in r.value.available && r.value.selection.month in MonthNames
  {
    match Load(sheets)
    case Failure(e) => Failure(e)
    case Success(ledger) =>
      var available := AvailableMonths(ledger);
      var selection := Select(stored, available, pressed);
      assert forall m :: m in MonthNames ==> m != "";
      Success(Page(Calculate(ledger), available, selection, SpendingSection(ledger, selection)))
  }

  /** With three empty sheets: Cash and Debit are their offsets, Savings is
      zero, no month is available, nothing is selected and the spending
      section shows its "no months" warning. */
  lemma EmptySheetsScenario(pressed: Option<string>)
    ensures Run(map["January" := [], "February" := [], "March" := []], None, pressed)
      == Success(Page(Balances(22900, 559714, 0, 582614), [], NoMonth, NoMonthsAvailable))
  {
    var sheets: map<string, seq<Record>> := map["January" := [], "February" := [], "March" := []];
    assert AllSheetsPresent(sheets);
    var tables := seq(|ConfiguredMonths|, k requires 0 <= k < |ConfiguredMonths| => sheets[ConfiguredMonths[k]]);
    assert tables == [[], [], []];
    assert Concat(tables[1..][1..]) == [];
    assert Concat(tables[1..]) == [];
    assert SheetRecords(sheets) == [];
    var ledger := Load(sheets).value;
    assert |Records(ledger)| == |ledger| == 0;
    assert ledger == [];
    EmptyLedgerBalances();
  }

  const Groceries: Row := Row(Record(Date(2024, 1, 5), -5000, "", "", "Groceries", "Debit"), "January")
  const ToSavings: Row := Row(Record(Date(2024, 1, 10), -30000, "", "", "Savings", "Debit"), "January")

  /** A $50 grocery purchase and a $300 transfer to savings, both by debit in
      January 2024: Debit is 5247.14, Savings 300.00, Cash 229.00 and Total
      5776.14. */
  lemma GroceriesAndSavingsBalances()
    ensures Calculate([Groceries, ToSavings]) == Balances(22900, 524714, 30000, 577614)
  {
    CalculateAppendRow([Groceries], ToSavings);
    CalculateAppendRow([], Groceries);
    assert [] + [Groceries] == [Groceries];
    assert [Groceries] + [ToSavings] == [Groceries, ToSavings];
  }

  lemma ExampleSpendCategories()
    ensures SpendCategories([Groceries, ToSavings], "January") == {"Groceries"}
  {
    assert !IsSpend("January", ToSavings);
    assert Groceries in [Groceries, ToSavings];
  }

  lemma ExampleSpentOnGroceries()
    ensures SpentIn([Groceries, ToSavings], "January", "Groceries") == 5000
  {
    assert [Groceries, ToSavings][1..] == [ToSavings];
    assert [ToSavings][1..] == [];
    assert SpentIn([ToSavings], "January", "Groceries") == 0;
    assert IsSpend("January", Groceries);
  }

  /** In the same ledger January's breakdown is Groceries 50.00 alone: the
      transfer to savings is not spending. */
  lemma GroceriesAndSavingsBreakdown()
    ensures Breakdown([Groceries, ToSavings], "January") == [CategorySpend("Groceries", 5000)]
  {
    var expected := [CategorySpend("Groceries", 5000)];
    ExampleBreakdown();
    var b := Breakdown([Groceries, ToSavings], "January");
    BreakdownDeterminedUpToTies([Groceries, ToSavings], "January", b, expected);
    assert b[0] in expected;
  }

  lemma ExampleBreakdown()
    ensures IsBreakdownOf([Groceries, ToSavings], "January", [CategorySpend("Groceries", 5000)])
  {
    var expected := [CategorySpend("Groceries", 5000)];
    ExampleSpendCategories();
    ExampleSpentOnGroceries();
    assert Categories(expected) == {"Groceries"} by {
      assert expected[0].category in Categories(expected);
    }
  }

  /** A purchase kept on the February sheet but dated in January shows up in
      January's breakdown. */
  lemma MisfiledPurchaseCountsInItsDateMonth(sheets: map<string, seq<Record>>, ledger: seq<Row>, j: nat)
    requires Load(sheets) == Success(ledger)
    requires "February" in sheets && j < |sheets["February"]|
    requires sheets["February"][j].date.month == 1
    requires sheets["February"][j].amount < 0 && sheets["February"][j].category != "Savings"
    ensures sheets["February"][j].category in Categories(Breakdown(ledger, "January"))
  {
    LabelComesFromDate(sheets, j);
    SpendRowReported(ledger, |sheets["January"]| + j, "January");
  }

  /** Such a purchase is left out of February's breakdown, the month of the
      sheet it was kept on: deleting it leaves that breakdown unchanged. */
  lemma MisfiledPurchaseLeavesSheetMonth(sheets: map<string, seq<Record>>, ledger: seq<Row>, j: nat)
    requires Load(sheets) == Success(ledger)
    requires "February" in sheets && j < |sheets["February"]|
    requires sheets["February"][j].date.month == 1
    ensures "January" in sheets && |sheets["January"]| + j < |ledger|
    ensures var k := |sheets["January"]| + j;
      Breakdown(ledger, "February") == Breakdown(ledger[..k] + ledger[k + 1..], "February")
  {
    LoadConcatenatesInOrder(sheets);
    LabelComesFromDate(sheets, j);
    NonSpendRowRemoved(ledger, |sheets["January"]| + j, "February");
  }
}
