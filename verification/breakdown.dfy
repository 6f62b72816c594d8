/** The spending breakdown for one selected month (main.py:301-309): keep
    that month's rows with a strictly negative amount whose category is not
    "Savings", group them by category, sum, take the absolute value and sort
    the totals from largest to smallest. */
module SpendingBreakdown {
  import opened Seqs
  import opened Ledger

  /** One line of the breakdown: cents spent in a category. */
  datatype CategorySpend = CategorySpend(category: string, spent: int)

  function Abs(x: int): int {
    if x < 0 then -x else x
  }

  /** A row counts as spending in `month`: labelled with that month, money
      going out, and not a transfer to savings. */
  predicate IsSpend(month: string, r: Row) {
    r.month == month && r.rec.amount < 0 && r.rec.category != "Savings"
  }

  /** Reference definition: the cents spent in category `c` during `month`,
      counted row by row. */
  function SpentIn(ledger: seq<Row>, month: string, c: string): (total: int)
    ensures total >= 0
  {
    if |ledger| == 0 then 0
    else
      (if IsSpend(month, ledger[0]) && ledger[0].rec.category == c then -ledger[0].rec.amount else 0)
      + SpentIn(ledger[1..], month, c)
  }

  /** Reference definition: the categories with any spending in `month`. */
  function SpendCategories(ledger: seq<Row>, month: string): set<string> {
    set r | r in ledger && IsSpend(month, r) :: r.rec.category
  }

  /** The categories a breakdown reports. */
  function Categories(b: seq<CategorySpend>): set<string> {
    set i | 0 <= i < |b| :: b[i].category
  }

  /** Largest total first (ties in any order). */
  predicate Descending(b: seq<CategorySpend>) {
    forall i, j :: 0 <= i < j < |b| ==> b[i].spent >= b[j].spent
  }

  /** Each category reported at most once. */
  predicate DistinctCategories(b: seq<CategorySpend>) {
    forall i, j :: 0 <= i < j < |b| ==> b[i].category != b[j].category
  }

  /** What a breakdown of `month` is, independently of how it is computed:
      sorted from largest to smallest, one line per category, exactly the
      categories with spending that month, each with what was spent in it. */
  ghost predicate IsBreakdownOf(ledger: seq<Row>, month: string, b: seq<CategorySpend>) {
    && Descending(b)
    && DistinctCategories(b)
    && Categories(b) == SpendCategories(ledger, month)
    && forall i :: 0 <= i < |b| ==> b[i].spent == SpentIn(ledger, month, b[i].category)
  }

  // The steps of `display_spending_breakdown` (main.py:303-309).

  /** The rows labelled with the selected month (main.py:303). */
  function MonthData(ledger: seq<Row>, month: string): seq<Row> {
    Filter(ledger, (r: Row) => r.month == month)
  }

  /** The outflow mask: a negative amount outside the "Savings" category
      (main.py:307-308). */
  predicate IsOutflow(r: Row) {
    r.rec.amount < 0 && r.rec.category != "Savings"
  }

  /** The rows the breakdown is computed from: the month's rows kept by
      the outflow mask (main.py:303-308), each as often as in the ledger. */
  function SpendRows(ledger: seq<Row>, month: string): (rows: seq<Row>)
    ensures forall r :: r in rows <==> r in ledger && IsSpend(month, r)
    ensures forall r :: multiset(rows)[r] == if IsSpend(month, r) then multiset(ledger)[r] else 0
  {
    var inMonth := MonthData(ledger, month);
    assert forall r :: multiset(inMonth)[r] == if r.month == month then multiset(ledger)[r] else 0;
    Filter(inMonth, IsOutflow)
  }

  function CategoryOf(r: Row): string { r.rec.category }

  function InCategory(rows: seq<Row>, c: string): seq<Row> {
    Filter(rows, (r: Row) => r.rec.category == c)
  }

  /** The categories of some rows. */
  function RowCategories(rows: seq<Row>): set<string> {
    set r | r in rows :: r.rec.category
  }

  /** Grouping by category, summing and taking absolute values
      (main.py:309): one line for each category of the rows, carrying the
      absolute value of that category's summed amounts. The model lists the
      categories in order of first appearance; the order does not survive
      the sort that follows. */
  function GroupSums(rows: seq<Row>): (g: seq<CategorySpend>)
    ensures DistinctCategories(g)
    ensures Categories(g) == RowCategories(rows)
    ensures forall i :: 0 <= i < |g| ==> g[i].spent == Abs(SumAmounts(InCategory(rows, g[i].category)))
  {
    var cats := Unique(Map(rows, CategoryOf));
    var g := seq(|cats|, i requires 0 <= i < |cats| =>
      CategorySpend(cats[i], Abs(SumAmounts(InCategory(rows, cats[i])))));
    UniqueCategoriesOfRows(rows);
    assert Categories(g) == RowCategories(rows) by {
      forall c | c in Categories(g) ensures c in RowCategories(rows) {
        var i :| 0 <= i < |g| && g[i].category == c;
        assert cats[i] in cats;
      }
      forall c | c in RowCategories(rows) ensures c in Categories(g) {
        var i :| 0 <= i < |cats| && cats[i] == c;
        assert g[i].category == c;
      }
    }
    g
  }

  /** The distinct categories of some rows are exactly their categories. */
  lemma UniqueCategoriesOfRows(rows: seq<Row>)
    ensures forall c :: c in Unique(Map(rows, CategoryOf)) <==> c in RowCategories(rows)
  {
    var names := Map(rows, CategoryOf);
    forall c | c in names ensures c in RowCategories(rows) {
      var k :| 0 <= k < |names| && names[k] == c;
      assert rows[k] in rows;
    }
    forall c | c in RowCategories(rows) ensures c in names {
      var r :| r in rows && r.rec.category == c;
      var k :| 0 <= k < |rows| && rows[k] == r;
      assert names[k] == c;
    }
  }

  /** A line whose total is at least every total of a descending sequence
      may head it. */
  lemma DescendingCons(h: CategorySpend, t: seq<CategorySpend>)
    requires Descending(t)
    requires forall y :: y in t ==> y.spent <= h.spent
    ensures Descending([h] + t)
  {
    forall i, j | 0 <= i < j < |[h] + t|
      ensures ([h] + t)[i].spent >= ([h] + t)[j].spent
    {
      assert ([h] + t)[j] == t[j - 1];
      if i > 0 { assert ([h] + t)[i] == t[i - 1]; }
      else { assert t[j - 1] in t; }
    }
  }

  lemma DescendingTail(s: seq<CategorySpend>)
    requires |s| > 0 && Descending(s)
    ensures Descending(s[1..])
  {
    forall i, j | 0 <= i < j < |s[1..]| ensures s[1..][i].spent >= s[1..][j].spent {
      assert s[1..][i] == s[i + 1] && s[1..][j] == s[j + 1];
    }
  }

  /** Whatever is made of the tail of a descending sequence and a line with a
      smaller total than its head stays below the head. */
  lemma BoundedByHead(x: CategorySpend, s: seq<CategorySpend>, rest: seq<CategorySpend>)
    requires |s| > 0 && Descending(s) && x.spent < s[0].spent
    requires forall y :: y in rest ==> y == x || y in s[1..]
    ensures forall y :: y in rest ==> y.spent <= s[0].spent
  {
    forall y | y in rest ensures y.spent <= s[0].spent {
      if y != x {
        var j :| 0 <= j < |s[1..]| && s[1..][j] == y;
        assert s[j + 1] == y;
      }
    }
  }

  /** Places `x` before the first line with a smaller total. */
  function Insert(x: CategorySpend, s: seq<CategorySpend>): (r: seq<CategorySpend>)
    requires Descending(s)
    ensures Descending(r)
    ensures multiset(r) == multiset(s) + multiset{x}
    ensures forall y :: y in r <==> y == x || y in s
  {
    if |s| == 0 then [x]
    else if x.spent >= s[0].spent then
      DescendingCons(x, s);
      [x] + s
    else
      DescendingTail(s);
      var rest := Insert(x, s[1..]);
      BoundedByHead(x, s, rest);
      DescendingCons(s[0], rest);
      assert s == [s[0]] + s[1..];
      [s[0]] + rest
  }

  /** The descending sort by total (main.py:309), as an insertion sort. */
  function SortDescending(s: seq<CategorySpend>): (r: seq<CategorySpend>)
    ensures Descending(r)
    ensures multiset(r) == multiset(s)
    ensures forall y :: y in r <==> y in s
  {
    if |s| == 0 then []
    else
      assert s == [s[0]] + s[1..];
      Insert(s[0], SortDescending(s[1..]))
  }

  lemma {:induction false} InsertKeepsCategoriesDistinct(x: CategorySpend, s: seq<CategorySpend>)
    requires Descending(s) && DistinctCategories(s)
    requires forall k :: 0 <= k < |s| ==> s[k].category != x.category
    ensures DistinctCategories(Insert(x, s))
  {
    if |s| == 0 || x.spent >= s[0].spent {
    } else {
      var rest := Insert(x, s[1..]);
      InsertKeepsCategoriesDistinct(x, s[1..]);
      forall k | 0 <= k < |rest|
        ensures rest[k].category != s[0].category
      {
        assert rest[k] in rest;
        if rest[k] != x {
          var j :| 0 <= j < |s[1..]| && s[1..][j] == rest[k];
          assert s[j + 1] == rest[k];
        }
      }
    }
  }

  lemma {:induction false} SortKeepsCategoriesDistinct(s: seq<CategorySpend>)
    requires DistinctCategories(s)
    ensures DistinctCategories(SortDescending(s))
  {
    if |s| > 0 {
      var sorted := SortDescending(s[1..]);
      SortKeepsCategoriesDistinct(s[1..]);
      forall k | 0 <= k < |sorted|
        ensures sorted[k].category != s[0].category
      {
        assert sorted[k] in sorted;
        var j :| 0 <= j < |s[1..]| && s[1..][j] == sorted[k];
        assert s[j + 1] == sorted[k];
      }
      InsertKeepsCategoriesDistinct(s[0], sorted);
    }
  }

  /** Sequences with the same entries report the same categories. */
  lemma SameEntriesSameCategories(a: seq<CategorySpend>, b: seq<CategorySpend>)
    requires forall y :: y in a <==> y in b
    ensures Categories(a) == Categories(b)
  {
    forall c | c in Categories(a) ensures c in Categories(b) {
      var i :| 0 <= i < |a| && a[i].category == c;
      assert a[i] in b;
    }
    forall c | c in Categories(b) ensures c in Categories(a) {
      var i :| 0 <= i < |b| && b[i].category == c;
      assert b[i] in a;
    }
  }

  /** Splitting off the first row of the ledger splits the month's spending
      in one category the same way. */
  lemma {:induction false} InCategorySumIsSpent(ledger: seq<Row>, month: string, c: string)
    ensures SumAmounts(InCategory(SpendRows(ledger, month), c)) == -SpentIn(ledger, month, c)
    decreases |ledger|
  {
    if |ledger| > 0 {
      var x := ledger[0];
      var rest := ledger[1..];
      assert ledger == [x] + rest;
      var inMonth := (r: Row) => r.month == month;
      var inCat := (r: Row) => r.rec.category == c;
      FilterAppend([x], rest, inMonth);
      FilterSingleton(x, inMonth);
      var head := Filter([x], inMonth);
      FilterAppend(head, MonthData(rest, month), IsOutflow);
      var headSpend := Filter(head, IsOutflow);
      assert headSpend == if IsSpend(month, x) then [x] else [] by {
        if x.month == month { FilterSingleton(x, IsOutflow); }
      }
      FilterAppend(headSpend, SpendRows(rest, month), inCat);
      var headCat := Filter(headSpend, inCat);
      assert headCat == if IsSpend(month, x) && x.rec.category == c then [x] else [] by {
        if IsSpend(month, x) { FilterSingleton(x, inCat); }
      }
      SumAppend(headCat, InCategory(SpendRows(rest, month), c));
      assert SumAmounts(headCat) == if IsSpend(month, x) && x.rec.category == c then x.rec.amount else 0 by {
        if headCat != [] { assert headCat[1..] == []; }
      }
      InCategorySumIsSpent(rest, month, c);
    }
  }

  /** A category with at least one spending row has a strictly positive total. */
  lemma {:induction false} SpentInPositive(ledger: seq<Row>, month: string, c: string)
    requires c in SpendCategories(ledger, month)
    ensures SpentIn(ledger, month, c) > 0
    decreases |ledger|
  {
    var r :| r in ledger && IsSpend(month, r) && r.rec.category == c;
    if ledger[0] != r {
      assert r in ledger[1..];
      SpentInPositive(ledger[1..], month, c);
    }
  }

  /** The grouped lines report exactly the categories with spending. */
  lemma GroupSumsCategories(ledger: seq<Row>, month: string)
    ensures Categories(GroupSums(SpendRows(ledger, month))) == SpendCategories(ledger, month)
  {
    var rows := SpendRows(ledger, month);
    assert RowCategories(rows) == SpendCategories(ledger, month);
  }

  /** Each grouped line carries its category's total, which is positive. */
  lemma GroupSumsValues(ledger: seq<Row>, month: string)
    ensures forall y :: y in GroupSums(SpendRows(ledger, month)) ==>
      y.spent == SpentIn(ledger, month, y.category) && y.spent > 0
  {
    var g := GroupSums(SpendRows(ledger, month));
    GroupSumsCategories(ledger, month);
    forall y | y in g ensures y.spent == SpentIn(ledger, month, y.category) && y.spent > 0 {
      var i :| 0 <= i < |g| && g[i] == y;
      InCategorySumIsSpent(ledger, month, y.category);
      assert y.category in Categories(g);
      SpentInPositive(ledger, month, y.category);
    }
  }

  /** Sorting the grouped lines gives a breakdown. */
  lemma SortedGroupSumsIsBreakdown(ledger: seq<Row>, month: string)
    ensures IsBreakdownOf(ledger, month, SortDescending(GroupSums(SpendRows(ledger, month))))
  {
    var grouped := GroupSums(SpendRows(ledger, month));
    GroupSumsCategories(ledger, month);
    GroupSumsValues(ledger, month);
    SortKeepsCategoriesDistinct(grouped);
    var b := SortDescending(grouped);
    SameEntriesSameCategories(b, grouped);
    forall i | 0 <= i < |b| ensures b[i].spent == SpentIn(ledger, month, b[i].category) {
      assert b[i] in grouped;
    }
  }

  /** The breakdown the dashboard shows for `month` (main.py:303-309). */
  function Breakdown(ledger: seq<Row>, month: string): (b: seq<CategorySpend>)
    ensures IsBreakdownOf(ledger, month, b)
    ensures forall i :: 0 <= i < |b| ==> b[i].spent > 0 && b[i].category != "Savings"
  {
    var b := SortDescending(GroupSums(SpendRows(ledger, month)));
    SortedGroupSumsIsBreakdown(ledger, month);
    BreakdownLinesPositive(ledger, month, b);
    b
  }

  /** Every line of a breakdown has a positive total and a category other
      than "Savings". */
  lemma BreakdownLinesPositive(ledger: seq<Row>, month: string, b: seq<CategorySpend>)
    requires IsBreakdownOf(ledger, month, b)
    ensures forall i :: 0 <= i < |b| ==> b[i].spent > 0 && b[i].category != "Savings"
  {
    assert forall i :: 0 <= i < |b| ==> b[i].category in Categories(b);
    assert forall c :: c in SpendCategories(ledger, month) ==> c != "Savings";
    SpentInPositiveAll(ledger, month);
  }

  lemma SpentInPositiveAll(ledger: seq<Row>, month: string)
    ensures forall c :: c in SpendCategories(ledger, month) ==> SpentIn(ledger, month, c) > 0
  {
    forall c | c in SpendCategories(ledger, month) ensures SpentIn(ledger, month, c) > 0 {
      SpentInPositive(ledger, month, c);
    }
  }

  lemma SpendRowsAppend(a: seq<Row>, b: seq<Row>, month: string)
    ensures SpendRows(a + b, month) == SpendRows(a, month) + SpendRows(b, month)
  {
    FilterAppend(a, b, (r: Row) => r.month == month);
    FilterAppend(MonthData(a, month), MonthData(b, month), IsOutflow);
  }

  /** A row that is not spending in `month` (another month, an amount of
      zero or more, or a "Savings" transfer) leaves no spending row. */
  lemma SpendRowsOfOther(r: Row, month: string)
    requires !IsSpend(month, r)
    ensures SpendRows([r], month) == []
  {
  }

  /** Rows that are not spending in `month` never affect its breakdown,
      wherever they stand in the ledger. */
  lemma NonSpendRowIgnored(a: seq<Row>, r: Row, b: seq<Row>, month: string)
    requires !IsSpend(month, r)
    ensures Breakdown(a + [r] + b, month) == Breakdown(a + b, month)
  {
    SpendRowsAppend(a + [r], b, month);
    SpendRowsAppend(a, [r], month);
    SpendRowsAppend(a, b, month);
    SpendRowsOfOther(r, month);
    assert SpendRows(a, month) + [] == SpendRows(a, month);
  }

  /** Lines with distinct categories report as many categories as lines. */
  lemma {:induction false} DistinctCategoriesCount(b: seq<CategorySpend>)
    requires DistinctCategories(b)
    ensures |Categories(b)| == |b|
  {
    if |b| > 0 {
      var t := b[1..];
      assert DistinctCategories(t) by {
        forall i, j | 0 <= i < j < |t| ensures t[i].category != t[j].category {
          assert t[i] == b[i + 1] && t[j] == b[j + 1];
        }
      }
      DistinctCategoriesCount(t);
      assert Categories(b) == {b[0].category} + Categories(t) by {
        forall c | c in Categories(b) ensures c in {b[0].category} + Categories(t) {
          var i :| 0 <= i < |b| && b[i].category == c;
          if i > 0 { assert t[i - 1] == b[i]; }
        }
        forall c | c in Categories(t) ensures c in Categories(b) {
          var i :| 0 <= i < |t| && t[i].category == c;
          assert b[i + 1] == t[i];
        }
      }
      assert b[0].category !in Categories(t) by {
        forall i | 0 <= i < |t| ensures t[i].category != b[0].category {
          assert t[i] == b[i + 1];
        }
      }
    }
  }

  /** The description of a breakdown fixes it up to the order of equal
      totals: two breakdowns of the same month have the same lines and as
      many of them as there are spending categories. */
  lemma BreakdownDeterminedUpToTies(ledger: seq<Row>, month: string, b1: seq<CategorySpend>, b2: seq<CategorySpend>)
    requires IsBreakdownOf(ledger, month, b1) && IsBreakdownOf(ledger, month, b2)
    ensures |b1| == |b2| == |SpendCategories(ledger, month)|
    ensures forall y :: y in b1 <==> y in b2
  {
    DistinctCategoriesCount(b1);
    DistinctCategoriesCount(b2);
    forall y | y in b1 ensures y in b2 {
      var i :| 0 <= i < |b1| && b1[i] == y;
      assert y.category in Categories(b2);
      var j :| 0 <= j < |b2| && b2[j].category == y.category;
      assert b2[j] == y;
    }
    forall y | y in b2 ensures y in b1 {
      var i :| 0 <= i < |b2| && b2[i] == y;
      assert y.category in Categories(b1);
      var j :| 0 <= j < |b1| && b1[j].category == y.category;
      assert b1[j] == y;
    }
  }

  /** The category of any spending row of the month is reported. */
  lemma SpendRowReported(ledger: seq<Row>, k: nat, month: string)
    requires k < |ledger| && IsSpend(month, ledger[k])
    ensures ledger[k].rec.category in Categories(Breakdown(ledger, month))
  {
    assert ledger[k] in ledger;
    assert ledger[k].rec.category in SpendCategories(ledger, month);
  }

  /** Deleting a row that is not spending in the month leaves its breakdown
      as it was. */
  lemma NonSpendRowRemoved(ledger: seq<Row>, k: nat, month: string)
    requires k < |ledger| && !IsSpend(month, ledger[k])
    ensures Breakdown(ledger, month) == Breakdown(ledger[..k] + ledger[k + 1..], month)
  {
    assert ledger == ledger[..k] + [ledger[k]] + ledger[k + 1..];
    NonSpendRowIgnored(ledger[..k], ledger[k], ledger[k + 1..], month);
  }
}

