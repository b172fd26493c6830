/**
 * The month switcher (components/dashboard/MonthSelector.tsx): previous and next month buttons
 * over the "YYYY-MM" `currentMonth`, where next is refused once it would pass the present month.
 * The present instant ("now") is a parameter, given by its calendar month.
 */
module MonthSelector {
  import opened Types
  import opened Months
  import opened FinanceContext

  /**
   * `isAfter(addMonths(currentDate, 1), new Date())`: the first instant of the next month is after
   * now exactly when that month comes after now's month. An unparseable month is an Invalid Date,
   * for which the comparison is false.
   */
  predicate NextMonthDisabled(currentMonth: string, now: YearMonth) {
    ParseMonth(currentMonth).Some? && Index(Next(ParseMonth(currentMonth).value)) > Index(now)
  }

  /** The month `goToPrevMonth` selects; None where the source's date formatting fails. */
  function PrevMonthOf(currentMonth: string): Option<string> {
    match ParseMonth(currentMonth)
    case Some(ym) => Some(FormatMonth(Prev(ym)))
    case None => None
  }

  /** The month `goToNextMonth` selects; None when it does nothing (or its date formatting fails). */
  function NextMonthOf(currentMonth: string, now: YearMonth): Option<string> {
    match ParseMonth(currentMonth)
    case Some(ym) => if Index(Next(ym)) > Index(now) then None else Some(FormatMonth(Next(ym)))
    case None => None
  }

  method GoToPrevMonth(store: FinanceStore)
    requires store.Valid()
    modifies store
    ensures store.Valid()
    ensures PrevMonthOf(old(store.currentMonth)).Some? ==> store.currentMonth == PrevMonthOf(old(store.currentMonth)).value
    ensures PrevMonthOf(old(store.currentMonth)).None? ==> store.currentMonth == old(store.currentMonth)
    ensures store.transactions == old(store.transactions) && store.budgets == old(store.budgets)
  {
    var currentDate := ParseMonth(store.currentMonth);
    if currentDate.Some? {
      var prevMonth := Prev(currentDate.value);
      store.SetCurrentMonth(FormatMonth(prevMonth));
    }
  }

  method GoToNextMonth(store: FinanceStore, now: YearMonth)
    requires store.Valid()
    modifies store
    ensures store.Valid()
    ensures NextMonthOf(old(store.currentMonth), now).Some? ==>
              store.currentMonth == NextMonthOf(old(store.currentMonth), now).value
    ensures NextMonthOf(old(store.currentMonth), now).None? ==> store.currentMonth == old(store.currentMonth)
    ensures store.transactions == old(store.transactions) && store.budgets == old(store.budgets)
  {
    var currentDate := ParseMonth(store.currentMonth);
    if currentDate.Some? {
      var nextMonth := Next(currentDate.value);
      if !(Index(nextMonth) > Index(now)) {
        store.SetCurrentMonth(FormatMonth(nextMonth));
      }
    }
  }

  // ---- properties ----

  /**
   * For a readable month, the next button does nothing exactly when it is shown disabled, and
   * otherwise moves to the following month, which never passes the present month. The new text
   * reads back as the following month, with its era year (the month itself from year 0001 on).
   */
  lemma {:induction false} NextMonthRule(currentMonth: string, now: YearMonth)
    requires ParseMonth(currentMonth).Some? && ValidMonth(now) && now.year <= 9999
    ensures NextMonthOf(currentMonth, now).None? <==> NextMonthDisabled(currentMonth, now)
    ensures NextMonthOf(currentMonth, now).Some? ==>
              var ym := ParseMonth(currentMonth).value;
              && ParseMonth(NextMonthOf(currentMonth, now).value)
                 == Some(YearMonth(EraYear(Next(ym).year), Next(ym).month))
              && (ym.year >= 1 ==> ParseMonth(NextMonthOf(currentMonth, now).value) == Some(Next(ym)))
              && Index(Next(ym)) <= Index(now)
              && NextMonthOf(currentMonth, now).value != currentMonth
  {
    var ym := ParseMonth(currentMonth).value;
    var next := Next(ym);
    if Index(next) <= Index(now) {
      NextCases(ym);
      assert 0 <= next.year <= now.year;
      ParseFormat(next);
    }
  }

  /**
   * The previous button always changes the month, and its text always reads back: to the month
   * before with its era year, which is the month before itself from 0002-01 on. So navigating back
   * never reaches a text that cannot be read.
   */
  lemma {:induction false} PrevMonthRule(currentMonth: string)
    requires ParseMonth(currentMonth).Some?
    ensures PrevMonthOf(currentMonth).Some? && PrevMonthOf(currentMonth).value != currentMonth
    ensures var ym := ParseMonth(currentMonth).value;
              ParseMonth(PrevMonthOf(currentMonth).value) == Some(YearMonth(EraYear(Prev(ym).year), Prev(ym).month))
    ensures Index(ParseMonth(currentMonth).value) >= 13 ==>
              ParseMonth(PrevMonthOf(currentMonth).value) == Some(Prev(ParseMonth(currentMonth).value))
  {
    var ym := ParseMonth(currentMonth).value;
    var prev := Prev(ym);
    PrevCases(ym);
    assert -1 <= prev.year <= 9999;
    ParseFormat(prev);
  }

  /**
   * At the first month of year 0001 the previous month is year 0 (1 BC), which date-fns prints as
   * "0001-12" again.
   */
  lemma {:induction false} FirstMonthWraps()
    ensures PrevMonthOf("0001-01") == Some("0001-12")
  {
    var jan := YearMonth(1, 1);
    FirstMonthTexts();
    ParseFormat(jan);
    assert ParseMonth("0001-01") == Some(jan);
    PrevCases(jan);
  }

  /** Stepping forward from that "0001-12" goes on to "0002-01", not back to "0001-01". */
  lemma {:induction false} WrappedMonthAdvances(now: YearMonth)
    requires Index(YearMonth(2, 1)) <= Index(now)
    ensures NextMonthOf("0001-12", now) == Some("0002-01")
  {
    var dec := YearMonth(1, 12);
    FirstMonthTexts();
    ParseFormat(dec);
    assert ParseMonth("0001-12") == Some(dec);
    NextCases(dec);
  }

  /** The texts of the months around the start of year 0001. */
  lemma {:induction false} FirstMonthTexts()
    ensures FormatMonth(YearMonth(1, 1)) == "0001-01"
    ensures FormatMonth(YearMonth(0, 12)) == "0001-12" && FormatMonth(YearMonth(1, 12)) == "0001-12"
    ensures FormatMonth(YearMonth(2, 1)) == "0002-01"
  {
    YearOneText();
    assert Digits(12) == "12";
    ZerosExtend(0);
    ZerosExtend(1);
    ZerosExtend(2);
    assert PadLeft(Digits(1), 2) == "01";
    assert PadLeft(Digits(2), 4) == "0002";
  }

  /** From 0002-01 on, stepping back and then forward returns to a month that is not in the future. */
  lemma {:induction false} PrevThenNext(currentMonth: string, now: YearMonth)
    requires ParseMonth(currentMonth).Some?
    requires 13 <= Index(ParseMonth(currentMonth).value) <= Index(now)
    ensures NextMonthOf(PrevMonthOf(currentMonth).value, now) == Some(currentMonth)
  {
    var ym := ParseMonth(currentMonth).value;
    PrevMonthRule(currentMonth);
    PrevNext(ym);
    FormatParse(currentMonth);
  }

  /**
   * Stepping forward and then back returns to the printed form of the month it started from:
   * the text itself from year 0001 on, and the year 0001 text for a year 0000 one.
   */
  lemma {:induction false} NextThenPrev(currentMonth: string, now: YearMonth)
    requires ValidMonth(now) && now.year <= 9999
    requires NextMonthOf(currentMonth, now).Some?
    ensures ParseMonth(currentMonth).Some?
    ensures PrevMonthOf(NextMonthOf(currentMonth, now).value) == Some(FormatMonth(ParseMonth(currentMonth).value))
    ensures ParseMonth(currentMonth).value.year >= 1 ==>
              PrevMonthOf(NextMonthOf(currentMonth, now).value) == Some(currentMonth)
    ensures ParseMonth(currentMonth).value.year == 0 ==>
              PrevMonthOf(NextMonthOf(currentMonth, now).value) == Some("0001" + currentMonth[4..])
  {
    var ym := ParseMonth(currentMonth).value;
    NextMonthRule(currentMonth, now);
    var n := Next(ym);
    var p := YearMonth(EraYear(n.year), n.month);
    assert PrevMonthOf(NextMonthOf(currentMonth, now).value) == Some(FormatMonth(Prev(p)));
    PrevOfReadNext(ym);
    FormatParse(currentMonth);
  }

  /** The month before the read-back next month prints as the month itself. */
  lemma {:induction false} PrevOfReadNext(ym: YearMonth)
    requires ValidMonth(ym) && ym.year >= 0
    ensures var n := Next(ym); FormatMonth(Prev(YearMonth(EraYear(n.year), n.month))) == FormatMonth(ym)
  {
    var n := Next(ym);
    var p := YearMonth(EraYear(n.year), n.month);
    NextCases(ym);
    PrevCases(p);
    if ym.year >= 1 {
      PrevNext(ym);
    } else {
      assert EraYear(Prev(p).year) == EraYear(ym.year) && Prev(p).month == ym.month;
    }
  }
}
