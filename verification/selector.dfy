/** Which months can be chosen and which one is (main.py:208-251, 295):
    the available months are the distinct `Month` labels in order of first
    appearance; the session keeps a selection across reruns, starting at
    the first available month; a month button only works when its month is
    available. */
module MonthSelector {
  import opened Wrappers
  import opened Seqs
  import opened Calendar
  import opened Ledger

  /** The session's `selected_month`: a month name, or Python's `None`. */
  datatype Selection = NoMonth | Chosen(month: string)

  /** The `Month` column. */
  function MonthLabels(ledger: seq<Row>): seq<string> {
    Map(ledger, (r: Row) => r.month)
  }

  /** The distinct month labels, in order of first appearance (main.py:295). */
  function AvailableMonths(ledger: seq<Row>): (months: seq<string>)
    ensures Distinct(months)
    ensures forall m :: m in months <==> m in MonthLabels(ledger)
    ensures forall m :: m in months <==> exists k :: 0 <= k < |ledger| && ledger[k].month == m
    ensures forall i, j :: 0 <= i < j < |months| ==>
      FirstIndex(MonthLabels(ledger), months[i]) < FirstIndex(MonthLabels(ledger), months[j])
    ensures |months| == 0 <==> |ledger| == 0
    ensures WellFormed(ledger) ==> forall m :: m in months ==> m in MonthNames
  {
    var labels := MonthLabels(ledger);
    var months := Unique(labels);
    assert forall k :: 0 <= k < |ledger| ==> labels[k] == ledger[k].month;
    assert |ledger| > 0 ==> labels[0] in months;
    assert WellFormed(ledger) ==> forall m :: m in months ==> m in MonthNames by {
      if WellFormed(ledger) {
        forall m | m in months ensures m in MonthNames {
          var k :| 0 <= k < |labels| && labels[k] == m;
          MonthNameRoundTrip(ledger[k].rec.date.month);
        }
      }
    }
    months
  }

  /** The selection a new session starts with: the first available month,
      or none when no month is available (main.py:235). */
  function DefaultSelection(available: seq<string>): (s: Selection)
    ensures s.NoMonth? <==> |available| == 0
    ensures s.Chosen? ==> s.month == available[0]
  {
    if |available| > 0 then Chosen(available[0]) else NoMonth
  }

  /** The selection before any button is handled: the one kept in the
      session, or the default when the session has none (main.py:234-235). */
  function InitialSelection(stored: Option<Selection>, available: seq<string>): (s: Selection)
    ensures stored.Some? ==> s == stored.value
    ensures stored.None? ==> s == DefaultSelection(available)
  {
    match stored
    case Some(kept) => kept
    case None => DefaultSelection(available)
  }

  /** The twelve month buttons (main.py:238-249). `pressed` is the label of
      the button clicked in this run, if any; a button is disabled unless its
      month is available, and a disabled button cannot be clicked. */
  function Press(current: Selection, available: seq<string>, pressed: Option<string>): (s: Selection)
    ensures s != current ==>
      s.Chosen? && pressed == Some(s.month) && s.month in available && s.month in MonthNames
    ensures pressed.Some? && pressed.value in available && pressed.value in MonthNames ==>
      s == Chosen(pressed.value)
  {
    match pressed
    case None => current
    case Some(m) => if m in MonthNames && m in available then Chosen(m) else current
  }

  /** `create_month_selector`: the selection after this run, which the
      session keeps for the next one. In a new session it is a month with
      data whenever there is one and none otherwise; a button can only
      select an available month; with no click, a kept selection survives
      even when its month no longer has data. */
  function Select(stored: Option<Selection>, available: seq<string>, pressed: Option<string>): (s: Selection)
    ensures stored.None? ==> (s.NoMonth? <==> |available| == 0)
    ensures stored.None? && s.Chosen? ==> s.month in available
    ensures stored.None? && pressed.None? && |available| > 0 ==> s == Chosen(available[0])
    ensures stored.Some? && pressed.None? ==> s == stored.value
    ensures s != InitialSelection(stored, available) ==>
      s.Chosen? && pressed == Some(s.month) && s.month in available
  {
    Press(InitialSelection(stored, available), available, pressed)
  }
}
