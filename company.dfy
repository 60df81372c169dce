/**
 * The company record's financial-year configuration: the month and day on which
 * the financial year ends, and the year that a given day belongs to.
 */
module Companies {
  import opened Optional
  import opened Calendar

  /** A company (school) with its configured financial-year end. */
  datatype Company = Company(companyId: int, financialYearEndMonth: int, financialYearEndDay: int)

  /** Year end defaults to 31 March. */
  const DefaultYearEndMonth := 3
  const DefaultYearEndDay := 31

  /** The `[Range(1, 12)]` and `[Range(1, 31)]` validation of the year-end fields. */
  predicate YearEndInRange(c: Company)
  {
    1 <= c.financialYearEndMonth <= 12 && 1 <= c.financialYearEndDay <= 31
  }

  /** A new company record with the default year end. */
  function NewCompany(companyId: int): (c: Company)
    ensures c.companyId == companyId && YearEndInRange(c)
    ensures c.financialYearEndMonth == 3 && c.financialYearEndDay == 31
  {
    Company(companyId, DefaultYearEndMonth, DefaultYearEndDay)
  }

  /**
   * The end of the financial year that ends in `year`: the configured day of the
   * configured month, or the month's last day when the configured day does not exist
   * in it. None where `DateTime` throws, which escapes the handler.
   */
  function GetFinancialYearEnd(c: Company, year: int): (r: Option<Date>)
    ensures r.Some? <==> 1 <= year <= 9999 && 1 <= c.financialYearEndMonth <= 12
    ensures r.Some? ==> IsValidDate(r.value)
    ensures r.Some? ==> r.value.year == year && r.value.month == c.financialYearEndMonth
    ensures r.Some? ==> r.value.day == c.financialYearEndDay
                        || r.value.day == DaysInMonth(year, c.financialYearEndMonth)
  {
    match NewDate(year, c.financialYearEndMonth, c.financialYearEndDay)
    case Some(d) => Some(d)
    case None =>
      match DaysInMonthChecked(year, c.financialYearEndMonth)
      case None => None
      case Some(n) => NewDate(year, c.financialYearEndMonth, n)
  }

  /** A configured day that exists in the month is kept exactly. */
  lemma YearEndKeepsExistingDay(c: Company, year: int)
    requires 1 <= year <= 9999 && 1 <= c.financialYearEndMonth <= 12
    requires 1 <= c.financialYearEndDay <= DaysInMonth(year, c.financialYearEndMonth)
    ensures GetFinancialYearEnd(c, year)
            == Some(Date(year, c.financialYearEndMonth, c.financialYearEndDay))
  {
  }

  /** A configured day that the month lacks (29 February in 2023, 31 April) becomes its last day. */
  lemma YearEndClampsMissingDay(c: Company, year: int)
    requires 1 <= year <= 9999 && 1 <= c.financialYearEndMonth <= 12
    requires !(1 <= c.financialYearEndDay <= DaysInMonth(year, c.financialYearEndMonth))
    ensures GetFinancialYearEnd(c, year)
            == Some(Date(year, c.financialYearEndMonth, DaysInMonth(year, c.financialYearEndMonth)))
  {
  }

  /**
   * The financial year `today` lies in: today's year while today is on or before
   * this year's year end, the next year after it.
   */
  function GetCurrentFinancialYear(c: Company, today: Date): (r: Option<int>)
    requires IsValidDate(today)
    ensures r.Some? <==> 1 <= c.financialYearEndMonth <= 12
    ensures r.Some? ==> r.value == today.year || r.value == today.year + 1
    ensures r.Some? ==> (r.value == today.year
                         <==> OnOrBefore(today, GetFinancialYearEnd(c, today.year).value))
  {
    match GetFinancialYearEnd(c, today.year)
    case None => None
    case Some(end) => Some(if OnOrBefore(today, end) then today.year else today.year + 1)
  }

  /**
   * Today lies after the end of the previous financial year and on or before the end
   * of the current one, wherever those ends are dates `DateTime` can hold.
   */
  lemma TodayFallsInCurrentFinancialYear(c: Company, today: Date)
    requires IsValidDate(today) && 1 <= c.financialYearEndMonth <= 12
    ensures var y := GetCurrentFinancialYear(c, today).value;
            && (GetFinancialYearEnd(c, y - 1).Some? ==> !OnOrBefore(today, GetFinancialYearEnd(c, y - 1).value))
            && (GetFinancialYearEnd(c, y).Some? ==> OnOrBefore(today, GetFinancialYearEnd(c, y).value))
  {
  }
}
