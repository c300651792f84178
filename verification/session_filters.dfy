/**
 * The filter state the dashboard keeps in its session: six "input" keys that the
 * widgets write, six "applied" keys that the data loaders read, the flag
 * `data_applied` that switches loading on, and `min_data_date`, the earliest
 * event date seen. Dates are day numbers (Python's `date.toordinal()`); the
 * current day is passed in wherever the dashboard asks the clock.
 */
module SessionFilters {
  import opened Options
  import opened SqlParams

  /** `date(2025, 1, 1).toordinal()`: the default start date. */
  const DefaultStartDate: int := 739252

  /** The four entries of the period selector. */
  const Total: string := "Gesamt"
  const Last7Days: string := "Letzte 7 Tage"
  const Last30Days: string := "Letzte 30 Tage"
  const Custom: string := "Benutzerdefiniert"

  /** The six filter values, as one group of keys holds them. */
  datatype FilterValues = FilterValues(
    period: string,
    startDate: int,
    endDate: int,
    customer: Option<string>,   // None stands for "all customers"
    products: seq<string>,
    strictInclusion: bool)

  /** The defaults: whole period, default dates, all customers, no product, not strict. */
  function Defaults(defaultEndDate: int): (d: FilterValues)
    ensures d.customer == None && d.products == [] && !d.strictInclusion
    ensures d.period == Total && d.startDate == DefaultStartDate && d.endDate == defaultEndDate
  {
    FilterValues(Total, DefaultStartDate, defaultEndDate, None, [], false)
  }

  /** A new start and end date. */
  datatype DateRange = DateRange(start: int, end: int)

  /**
   * The dates the period selector sets: the last 7 or 30 days up to today, or
   * everything from the earliest event date up to today; None (keep the dates)
   * for "Benutzerdefiniert" and any other value.
   */
  function PeriodRange(period: string, today: int, minDataDate: int): (r: Option<DateRange>)
    ensures r.Some? ==> r.value.end == today
  {
    if period == Last7Days then Some(DateRange(today - 7, today))
    else if period == Last30Days then Some(DateRange(today - 30, today))
    else if period == Total then Some(DateRange(minDataDate, today))
    else None
  }

  /** The single selected customer as the list the loaders expect. */
  function CustomerList(customer: Option<string>): (ids: seq<string>)
    ensures |ids| <= 1
    ensures ids == [] <==> customer.None?
    ensures customer.Some? ==> ids == [customer.value]
  {
    match customer
    case None => []
    case Some(c) => [c]
  }

  /**
   * The parameters the loaders are called with, or None while `data_applied`
   * is false and nothing is loaded.
   */
  function AppliedQuery(dataApplied: bool, applied: FilterValues): (q: Option<QueryParams>)
    ensures q.Some? <==> dataApplied
    ensures q.Some? ==>
      && q.value.startDate == applied.startDate && q.value.endDate == applied.endDate
      && (q.value.customerId == Null <==> applied.customer.None?)
      && (q.value.materialIds == Null <==> applied.products == [])
      && (q.value.materialFilterMode == 1 <==> applied.strictInclusion)
      && (q.value.materialFilterMode == 0 <==> !applied.strictInclusion)
    ensures q.Some? && applied.products != [] ==>
      ParseLiteral(q.value.materialIds) == Some(Join(applied.products, ","))
  {
    if !dataApplied then None
    else
      var customerIds := CustomerList(applied.customer);
      BuildQueryParamsRoundTrip(customerIds, applied.startDate, applied.endDate,
                                applied.products, applied.strictInclusion);
      Some(BuildQueryParams(customerIds, applied.startDate, applied.endDate,
                            applied.products, applied.strictInclusion))
  }

  /**
   * The earliest event date, or the default start date when the event log is
   * empty or has no date column.
   */
  function MinDataDate(eventDates: seq<int>): (m: int)
    ensures eventDates == [] ==> m == DefaultStartDate
    ensures eventDates != [] ==> m in eventDates
    ensures forall i :: 0 <= i < |eventDates| ==> m <= eventDates[i]
  {
    if eventDates == [] then DefaultStartDate
    else if |eventDates| == 1 then eventDates[0]
    else
      var rest := MinDataDate(eventDates[1..]);
      if eventDates[0] <= rest then eventDates[0] else rest
  }

  class FilterSession {
    var periodInput: string
    var startDateInput: int
    var endDateInput: int
    var customerInput: Option<string>
    var productInput: seq<string>
    var strictInclusionInput: bool

    var dataApplied: bool

    var appliedPeriod: string
    var appliedStartDate: int
    var appliedEndDate: int
    var appliedCustomer: Option<string>
    var appliedProducts: seq<string>
    var appliedStrictInclusion: bool

    /** `min_data_date`; absent until the filter column first computes it. */
    var minDataDate: Option<int>

    /** The six input keys. */
    function Input(): FilterValues
      reads this
    {
      FilterValues(periodInput, startDateInput, endDateInput, customerInput, productInput,
                   strictInclusionInput)
    }

    /** The six applied keys. */
    function Applied(): FilterValues
      reads this
    {
      FilterValues(appliedPeriod, appliedStartDate, appliedEndDate, appliedCustomer,
                   appliedProducts, appliedStrictInclusion)
    }

    /** What the loaders are called with in the current state. */
    function Query(): Option<QueryParams>
      reads this
    {
      AppliedQuery(dataApplied, Applied())
    }

    /** The first run of the script: every key at its default, nothing applied yet. */
    constructor (today: int)
      ensures Input() == Defaults(today) && Applied() == Defaults(today)
      ensures !dataApplied && minDataDate == None
      ensures Query() == None
    {
      periodInput := Total;
      startDateInput := DefaultStartDate;
      endDateInput := today;
      strictInclusionInput := false;
      customerInput := None;
      productInput := [];
      dataApplied := false;
      appliedPeriod := Total;
      appliedStartDate := DefaultStartDate;
      appliedEndDate := today;
      appliedCustomer := None;
      appliedProducts := [];
      appliedStrictInclusion := false;
      minDataDate := None;
    }

    /** Copies every input key to its applied key and switches loading on. */
    method ApplyFilters()
      modifies this
      ensures Applied() == old(Input())
      ensures Input() == old(Input())
      ensures dataApplied
      ensures minDataDate == old(minDataDate)
      ensures Query() == AppliedQuery(true, old(Input()))
    {
      appliedPeriod := periodInput;
      appliedStartDate := startDateInput;
      appliedEndDate := endDateInput;
      appliedCustomer := customerInput;
      appliedProducts := productInput;
      appliedStrictInclusion := strictInclusionInput;
      dataApplied := true;
    }

    /**
     * Puts every input key back to its default and applies them, so the loaders
     * run over all customers and all products, in non-strict mode.
     */
    method ResetFilters(today: int)
      modifies this
      ensures Input() == Defaults(today) && Applied() == Defaults(today)
      ensures dataApplied
      ensures minDataDate == old(minDataDate)
      ensures Query() == Some(QueryParams(Null, DefaultStartDate, today, Null, 0))
    {
      periodInput := Total;
      startDateInput := DefaultStartDate;
      endDateInput := today;
      customerInput := None;
      productInput := [];
      strictInclusionInput := false;
      ApplyFilters();
      ResetQuery(today);
    }

    /**
     * The period selector's callback: sets the input dates from the chosen period,
     * or leaves them for a custom period; nothing else changes.
     */
    method UpdateDatesOnPeriodChange(today: int)
      modifies this
      ensures var r := PeriodRange(old(periodInput), today, old(minDataDate).GetOr(DefaultStartDate));
        if r.Some? then startDateInput == r.value.start && endDateInput == r.value.end
        else startDateInput == old(startDateInput) && endDateInput == old(endDateInput)
      ensures periodInput == old(periodInput) && customerInput == old(customerInput)
      ensures productInput == old(productInput) && strictInclusionInput == old(strictInclusionInput)
      ensures Applied() == old(Applied()) && dataApplied == old(dataApplied)
      ensures minDataDate == old(minDataDate)
    {
      var period := periodInput;
      var minDate := minDataDate.GetOr(DefaultStartDate);
      var targetStart: Option<int> := None;
      var targetEnd := today;
      if period == Last7Days {
        targetStart := Some(today - 7);
      } else if period == Last30Days {
        targetStart := Some(today - 30);
      } else if period == Total {
        targetStart := Some(minDate);
        targetEnd := today;
      }
      if targetStart.Some? && period != Custom {
        startDateInput := targetStart.value;
        endDateInput := targetEnd;
      }
    }

    /** Records the earliest event date of the loaded event log as `min_data_date`. */
    method RecordMinDataDate(eventDates: seq<int>)
      modifies this
      ensures minDataDate == Some(MinDataDate(eventDates))
      ensures Input() == old(Input()) && Applied() == old(Applied())
      ensures dataApplied == old(dataApplied)
    {
      minDataDate := Some(MinDataDate(eventDates));
    }
  }

  // ---------------------------------------------------------------------------
  // Properties

  /** After a reset the loaders receive NULL for both id lists and mode 0. */
  lemma ResetQuery(today: int)
    ensures AppliedQuery(true, Defaults(today)) == Some(QueryParams(Null, DefaultStartDate, today, Null, 0))
  {
  }

  /**
   * The period rule: the last 7 and 30 days end today and span exactly that many
   * days, "Gesamt" starts at the earliest event date, and every other value keeps
   * the dates.
   */
  lemma PeriodRangeCases(period: string, today: int, minDataDate: int)
    ensures PeriodRange(period, today, minDataDate).None?
      <==> period != Last7Days && period != Last30Days && period != Total
    ensures period == Custom ==> PeriodRange(period, today, minDataDate).None?
    ensures period == Last7Days ==> PeriodRange(period, today, minDataDate) == Some(DateRange(today - 7, today))
    ensures period == Last30Days ==> PeriodRange(period, today, minDataDate) == Some(DateRange(today - 30, today))
    ensures period == Total ==> PeriodRange(period, today, minDataDate) == Some(DateRange(minDataDate, today))
  {
  }

  /** When the earliest event date is not in the future, a set range never ends before it starts. */
  lemma PeriodRangeOrdered(period: string, today: int, minDataDate: int)
    requires minDataDate <= today
    ensures var r := PeriodRange(period, today, minDataDate);
      r.Some? ==> r.value.start <= r.value.end
  {
  }

  /**
   * The single-customer selection: None sends NULL (all customers); a customer id
   * without quotes arrives at the procedure as exactly that id.
   */
  lemma CustomerSelectionParam(customer: Option<string>)
    ensures CustomerIdParam(CustomerList(customer)) == Null <==> customer.None?
    ensures customer.Some? && NoQuote(customer.value) ==>
      ParseLiteral(CustomerIdParam(CustomerList(customer))) == Some(customer.value)
  {
    if customer.Some? && NoQuote(customer.value) {
      CustomerParamRoundTrip([customer.value]);
    }
  }
}
