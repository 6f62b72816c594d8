/** Liquid balances (`calculate_liquid_balances`, main.py:141-163): Cash and
    Debit are the sums of their own method's amounts plus a fixed opening
    offset, Savings is the negated sum of every "Savings"-category amount,
    and Total adds the three. Amounts are in cents. */
module LiquidBalances {
  import opened Seqs
  import opened Ledger

  /** Opening balances not reflected in the transaction history
      ($229.00 cash, $5,597.14 debit; main.py:151-152). */
  const CashOffset: int := 22900
  const DebitOffset: int := 559714

  datatype Balances = Balances(cash: int, debit: int, savings: int, total: int)

  predicate IsSavingsTransfer(r: Row) { r.rec.category == "Savings" }
  predicate NotCredit(r: Row) { r.rec.paymentMethod != "Credit" }
  predicate PaidInCash(r: Row) { r.rec.paymentMethod == "Cash" }
  predicate PaidByDebit(r: Row) { r.rec.paymentMethod == "Debit" }

  /** `calculate_liquid_balances` (main.py:141-163), one filter and sum at a
      time. */
  function Calculate(ledger: seq<Row>): (b: Balances)
    ensures b.total == b.cash + b.debit + b.savings
  {
    var savingsTotal := -SumAmounts(Filter(ledger, IsSavingsTransfer));
    var nonCredit := Filter(ledger, NotCredit);
    var cash := SumAmounts(Filter(nonCredit, PaidInCash)) + CashOffset;
    var debit := SumAmounts(Filter(nonCredit, PaidByDebit)) + DebitOffset;
    Balances(cash, debit, savingsTotal, cash + debit + savingsTotal)
  }

  /** Reference definition, one row at a time: the balances before any
      transaction is seen. */
  const Opening: Balances := Balances(CashOffset, DebitOffset, 0, CashOffset + DebitOffset)

  /** Reference definition: the change one row makes. A Cash row moves Cash,
      a Debit row moves Debit, a "Savings" row moves Savings the other way
      (whatever its method), and nothing else moves anything. */
  function Apply(b: Balances, r: Row): Balances {
    var dc := if r.rec.paymentMethod == "Cash" then r.rec.amount else 0;
    var dd := if r.rec.paymentMethod == "Debit" then r.rec.amount else 0;
    var ds := if r.rec.category == "Savings" then -r.rec.amount else 0;
    Balances(b.cash + dc, b.debit + dd, b.savings + ds, b.total + dc + dd + ds)
  }

  /** Reference definition: the rows applied in order. */
  function Replay(b: Balances, rows: seq<Row>): Balances
    decreases |rows|
  {
    if |rows| == 0 then b else Replay(Apply(b, rows[0]), rows[1..])
  }

  lemma {:induction false} ReplaySnoc(b: Balances, rows: seq<Row>, r: Row)
    ensures Replay(b, rows + [r]) == Apply(Replay(b, rows), r)
    decreases |rows|
  {
    if |rows| == 0 {
      assert rows + [r] == [r];
      assert [r][1..] == [];
    } else {
      assert (rows + [r])[1..] == rows[1..] + [r];
      ReplaySnoc(Apply(b, rows[0]), rows[1..], r);
    }
  }

  /** The amount of one row, or nothing. */
  lemma SumOfOne(rows: seq<Row>, r: Row)
    requires rows == [r] || rows == []
    ensures SumAmounts(rows) == if rows == [r] then r.rec.amount else 0
  {
  }

  lemma SavingsAppendRow(ledger: seq<Row>, r: Row)
    ensures SumAmounts(Filter(ledger + [r], IsSavingsTransfer))
      == SumAmounts(Filter(ledger, IsSavingsTransfer)) + (if IsSavingsTransfer(r) then r.rec.amount else 0)
  {
    FilterAppend(ledger, [r], IsSavingsTransfer);
    FilterSingleton(r, IsSavingsTransfer);
    SumAppend(Filter(ledger, IsSavingsTransfer), Filter([r], IsSavingsTransfer));
    SumOfOne(Filter([r], IsSavingsTransfer), r);
  }

  lemma MethodAppendRow(ledger: seq<Row>, r: Row, paid: Row -> bool)
    requires forall x :: paid(x) ==> NotCredit(x)
    ensures SumAmounts(Filter(Filter(ledger + [r], NotCredit), paid))
      == SumAmounts(Filter(Filter(ledger, NotCredit), paid)) + (if paid(r) then r.rec.amount else 0)
  {
    FilterAppend(ledger, [r], NotCredit);
    FilterSingleton(r, NotCredit);
    var nc := Filter(ledger, NotCredit);
    var nc1 := Filter([r], NotCredit);
    FilterAppend(nc, nc1, paid);
    SumAppend(Filter(nc, paid), Filter(nc1, paid));
    if NotCredit(r) {
      FilterSingleton(r, paid);
    } else {
      assert nc1 == [];
    }
    SumOfOne(Filter(nc1, paid), r);
  }

  /** Appending one row to the ledger changes the balances exactly as that
      row alone says: Cash by its amount if it was paid in cash, Debit by its
      amount if paid by debit, Savings by minus its amount if its category
      is "Savings" (Credit included), Total by the sum of those changes. */
  lemma CalculateAppendRow(ledger: seq<Row>, r: Row)
    ensures Calculate(ledger + [r]) == Apply(Calculate(ledger), r)
    ensures Calculate(ledger + [r]).cash ==
      Calculate(ledger).cash + (if r.rec.paymentMethod == "Cash" then r.rec.amount else 0)
    ensures Calculate(ledger + [r]).debit ==
      Calculate(ledger).debit + (if r.rec.paymentMethod == "Debit" then r.rec.amount else 0)
    ensures Calculate(ledger + [r]).savings ==
      Calculate(ledger).savings - (if r.rec.category == "Savings" then r.rec.amount else 0)
  {
    SavingsAppendRow(ledger, r);
    MethodAppendRow(ledger, r, PaidInCash);
    MethodAppendRow(ledger, r, PaidByDebit);
  }

  /** The filter-and-sum computation of `calculate_liquid_balances` agrees with the row-by-row
      reference on every ledger. */
  lemma {:induction false} CalculateIsReplay(ledger: seq<Row>)
    ensures Calculate(ledger) == Replay(Opening, ledger)
    decreases |ledger|
  {
    if |ledger| == 0 {
    } else {
      var init := ledger[..|ledger| - 1];
      var last := ledger[|ledger| - 1];
      assert ledger == init + [last];
      CalculateIsReplay(init);
      CalculateAppendRow(init, last);
      ReplaySnoc(Opening, init, last);
    }
  }

  /** With no transactions, Cash and Debit are exactly their offsets and
      Savings is zero. */
  lemma EmptyLedgerBalances()
    ensures Calculate([]) == Balances(22900, 559714, 0, 582614)
  {
  }

  /** With no row paid in cash, Cash is exactly its opening offset, whatever
      the other rows are. */
  lemma {:induction false} NoCashRowsCashIsOffset(ledger: seq<Row>)
    requires forall r :: r in ledger ==> r.rec.paymentMethod != "Cash"
    ensures Calculate(ledger).cash == CashOffset
    decreases |ledger|
  {
    if |ledger| > 0 {
      var n := |ledger| - 1;
      assert ledger == ledger[..n] + [ledger[n]];
      assert forall r :: r in ledger[..n] ==> r in ledger;
      NoCashRowsCashIsOffset(ledger[..n]);
      CalculateAppendRow(ledger[..n], ledger[n]);
    }
  }

  /** With no row paid by debit, Debit is exactly its opening offset,
      whatever the other rows are. */
  lemma {:induction false} NoDebitRowsDebitIsOffset(ledger: seq<Row>)
    requires forall r :: r in ledger ==> r.rec.paymentMethod != "Debit"
    ensures Calculate(ledger).debit == DebitOffset
    decreases |ledger|
  {
    if |ledger| > 0 {
      var n := |ledger| - 1;
      assert ledger == ledger[..n] + [ledger[n]];
      assert forall r :: r in ledger[..n] ==> r in ledger;
      NoDebitRowsDebitIsOffset(ledger[..n]);
      CalculateAppendRow(ledger[..n], ledger[n]);
    }
  }

  /** A row paid neither in cash nor by debit (Credit, for one) whose
      category is not "Savings" changes no balance. */
  lemma OtherRowsChangeNothing(ledger: seq<Row>, r: Row)
    requires r.rec.paymentMethod != "Cash" && r.rec.paymentMethod != "Debit"
    requires r.rec.category != "Savings"
    ensures Calculate(ledger + [r]) == Calculate(ledger)
  {
    CalculateAppendRow(ledger, r);
  }

  /** The reference replay reads the records only, never the month
      labels. */
  lemma {:induction false} ReplayIgnoresMonthLabels(start: Balances, a: seq<Row>, b: seq<Row>)
    requires Records(a) == Records(b)
    ensures Replay(start, a) == Replay(start, b)
    decreases |a|
  {
    assert |a| == |Records(a)| == |Records(b)| == |b|;
    if |a| > 0 {
      assert a[0].rec == Records(a)[0] == Records(b)[0] == b[0].rec;
      assert Records(a[1..]) == Records(b[1..]) by {
        forall i | 0 <= i < |a| - 1 ensures Records(a[1..])[i] == Records(b[1..])[i] {
          assert Records(a)[i + 1] == Records(b)[i + 1];
        }
      }
      ReplayIgnoresMonthLabels(Apply(start, a[0]), a[1..], b[1..]);
    }
  }

  /** Balances depend on the records only: month labels do not matter, so
      relabelling a row (the date-derived month against the sheet it came
      from) leaves every balance as it was. */
  lemma BalancesIgnoreMonthLabels(a: seq<Row>, b: seq<Row>)
    requires Records(a) == Records(b)
    ensures Calculate(a) == Calculate(b)
  {
    CalculateIsReplay(a);
    CalculateIsReplay(b);
    ReplayIgnoresMonthLabels(Opening, a, b);
  }

  /** Balances over two tables concatenated: each of Cash, Debit and Savings
      adds the two tables' own movements. */
  lemma {:induction false} CalculateConcat(a: seq<Row>, b: seq<Row>)
    ensures Calculate(a + b).cash == Calculate(a).cash + Calculate(b).cash - CashOffset
    ensures Calculate(a + b).debit == Calculate(a).debit + Calculate(b).debit - DebitOffset
    ensures Calculate(a + b).savings == Calculate(a).savings + Calculate(b).savings
    decreases |b|
  {
    if |b| == 0 {
      assert a + b == a;
    } else {
      var n := |b| - 1;
      var init := b[..n];
      assert b == init + [b[n]];
      assert a + b == (a + init) + [b[n]];
      CalculateConcat(a, init);
      CalculateAppendRow(a + init, b[n]);
      CalculateAppendRow(init, b[n]);
    }
  }

  /** The order in which the sheets are concatenated does not change any
      balance. */
  lemma ConcatOrderIrrelevant(a: seq<Row>, b: seq<Row>)
    ensures Calculate(a + b) == Calculate(b + a)
  {
    CalculateConcat(a, b);
    CalculateConcat(b, a);
  }
}
