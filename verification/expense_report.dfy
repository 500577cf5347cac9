/** The expense report of expenses/views.py: lenient parsing of the date
    bounds, filtering by date window and category, newest-first ordering and
    the report total. */
module ExpenseReport {

  import opened Wrappers
  import opened Money
  import opened Sorting

  /** A calendar day, as its proleptic ordinal. */
  type Date = int

  datatype Expense = Expense(id: nat, date: Date, categoryId: Option<nat>, amount: Money)

  /** What Django's `parse_date` does with a string: a date, no match for the
      ISO pattern (`None`), or a `ValueError` for a well-formed but impossible
      date such as 2024-02-30. */
  datatype IsoOutcome = IsoDate(date: Date) | IsoNoMatch | IsoInvalidDate

  /** The two `strptime` formats tried after ISO: `%m/%d/%Y`, then `%d/%m/%Y`. */
  datatype DateFormat = MonthFirst | DayFirst

  /** The `ValueError` of `parse_date`, which nothing catches. */
  datatype ReportError = InvalidIsoDate

  predicate Blank(val: Option<string>)
  {
    val == None || val == Some("")
  }

  /** `_parse_date_any`: blank is no date; otherwise ISO first, then month-first,
      then day-first, and no date when nothing matches. `iso` stands for
      `parse_date` and `strptime` for `datetime.strptime(...).date()`. */
  function ParseDateAny(val: Option<string>, iso: string -> IsoOutcome,
                        strptime: (string, DateFormat) -> Option<Date>): (r: Result<Option<Date>, ReportError>)
    ensures Blank(val) ==> r == Ok(None)
    ensures r.Err? <==> !Blank(val) && iso(val.value) == IsoInvalidDate
    ensures r == Ok(None) <==>
      Blank(val) || (iso(val.value) == IsoNoMatch && strptime(val.value, MonthFirst) == None
                     && strptime(val.value, DayFirst) == None)
    ensures forall d :: r == Ok(Some(d)) ==>
      || iso(val.value) == IsoDate(d)
      || (iso(val.value) == IsoNoMatch && strptime(val.value, MonthFirst) == Some(d))
      || (iso(val.value) == IsoNoMatch && strptime(val.value, MonthFirst) == None
          && strptime(val.value, DayFirst) == Some(d))
  {
    if Blank(val) then Ok(None)
    else match iso(val.value)
      case IsoDate(d) => Ok(Some(d))
      case IsoInvalidDate => Err(InvalidIsoDate)
      case IsoNoMatch =>
        match strptime(val.value, MonthFirst)
        case Some(d) => Ok(Some(d))
        case None => Ok(strptime(val.value, DayFirst))
  }

  /** An ISO date wins over both slash formats. */
  lemma IsoTakesPrecedence(v: string, iso: string -> IsoOutcome, strptime: (string, DateFormat) -> Option<Date>, d: Date)
    requires v != "" && iso(v) == IsoDate(d)
    ensures ParseDateAny(Some(v), iso, strptime) == Ok(Some(d))
  {
  }

  /** An ambiguous text such as "03/04/2024", which both slash formats accept,
      is read month first. */
  lemma AmbiguousReadsMonthFirst(v: string, iso: string -> IsoOutcome, strptime: (string, DateFormat) -> Option<Date>)
    requires v != "" && iso(v) == IsoNoMatch
    requires strptime(v, MonthFirst).Some? && strptime(v, DayFirst).Some?
    ensures ParseDateAny(Some(v), iso, strptime) == Ok(strptime(v, MonthFirst))
  {
  }

  /** The date filter as the view chains it: a range with both bounds, one
      comparison with one bound, everything with none. */
  predicate DateKept(d: Date, start: Option<Date>, end: Option<Date>)
  {
    if start.Some? && end.Some? then start.value <= d <= end.value
    else if start.Some? then d >= start.value
    else if end.Some? then d <= end.value
    else true
  }

  /** The four branches agree with one rule: each bound that is present is inclusive. */
  lemma DateKeptIsWindow(d: Date, start: Option<Date>, end: Option<Date>)
    ensures DateKept(d, start, end) <==> (start.None? || start.value <= d) && (end.None? || d <= end.value)
  {
  }

  /** The category filter: applied only when a category was chosen. */
  predicate CategoryKept(e: Expense, category: Option<nat>)
  {
    category.None? || e.categoryId == Some(category.value)
  }

  predicate Kept(e: Expense, start: Option<Date>, end: Option<Date>, category: Option<nat>)
  {
    DateKept(e.date, start, end) && CategoryKept(e, category)
  }

  /** The rows of `es` the query keeps, in table order. */
  function Select(es: seq<Expense>, start: Option<Date>, end: Option<Date>, category: Option<nat>): (r: seq<Expense>)
    ensures forall e :: e in r <==> e in es && Kept(e, start, end, category)
    ensures forall e :: multiset(r)[e] == if Kept(e, start, end, category) then multiset(es)[e] else 0
    ensures multiset(r) <= multiset(es)
  {
    if es == [] then []
    else
      var rest := Select(es[1..], start, end, category);
      assert es == [es[0]] + es[1..];
      if Kept(es[0], start, end, category) then [es[0]] + rest else rest
  }

  function ExpenseKey(e: Expense): SortKey
  {
    SortKey(e.date, e.id)
  }

  function AmountOf(e: Expense): Money
  {
    e.amount
  }

  datatype Report = Report(rows: seq<Expense>, total: Money)

  /** `expense_report`: the kept rows newest first (date, then id, both
      descending) and the sum of their amounts. An impossible ISO date in
      either bound is an error. */
  function BuildReport(es: seq<Expense>, startRaw: Option<string>, endRaw: Option<string>, category: Option<nat>,
                       iso: string -> IsoOutcome, strptime: (string, DateFormat) -> Option<Date>): (r: Result<Report, ReportError>)
    ensures r.Err? <==> ParseDateAny(startRaw, iso, strptime).Err? || ParseDateAny(endRaw, iso, strptime).Err?
    ensures r.Ok? ==>
      var start := ParseDateAny(startRaw, iso, strptime).value;
      var end := ParseDateAny(endRaw, iso, strptime).value;
      && (forall e :: e in r.value.rows <==> e in es && Kept(e, start, end, category))
      && multiset(r.value.rows) == multiset(Select(es, start, end, category))
      && (forall i, j :: 0 <= i < j < |r.value.rows| ==>
            r.value.rows[i].date > r.value.rows[j].date
            || (r.value.rows[i].date == r.value.rows[j].date && r.value.rows[i].id >= r.value.rows[j].id))
      && r.value.total == SumOf(Select(es, start, end, category), AmountOf)
      && (r.value.rows == [] ==> r.value.total == 0.0)
  {
    var start :- ParseDateAny(startRaw, iso, strptime);
    var end :- ParseDateAny(endRaw, iso, strptime);
    var kept := Select(es, start, end, category);
    var rows := SortDesc(kept, ExpenseKey);
    NewestFirst(kept);
    Ok(Report(rows, SumOf(rows, AmountOf)))
  }

  /** Sorting by (date, id) descending keeps the rows and their total and
      puts the newest first. */
  lemma NewestFirst(kept: seq<Expense>)
    ensures var rows := SortDesc(kept, ExpenseKey);
      && (forall e :: e in rows <==> e in kept)
      && multiset(rows) == multiset(kept)
      && (forall i, j :: 0 <= i < j < |rows| ==>
            rows[i].date > rows[j].date || (rows[i].date == rows[j].date && rows[i].id >= rows[j].id))
      && SumOf(rows, AmountOf) == SumOf(kept, AmountOf)
  {
    var rows := SortDesc(kept, ExpenseKey);
    SortPreservesSum(kept, ExpenseKey, AmountOf);
    assert forall i, j :: 0 <= i < j < |rows| ==> AtLeast(ExpenseKey(rows[i]), ExpenseKey(rows[j]));
    assert forall e :: e in rows <==> e in multiset(kept);
  }

  /** A bound that does not parse is the same as no bound. */
  lemma UnparseableBoundIgnored(es: seq<Expense>, startRaw: Option<string>, endRaw: Option<string>, category: Option<nat>,
                                iso: string -> IsoOutcome, strptime: (string, DateFormat) -> Option<Date>)
    requires ParseDateAny(startRaw, iso, strptime) == Ok(None)
    ensures BuildReport(es, startRaw, endRaw, category, iso, strptime) == BuildReport(es, None, endRaw, category, iso, strptime)
  {
  }

  /** Choosing a category narrows the report to a sub-multiset of the rows
      the same window shows without one. */
  lemma {:induction false} CategoryNarrows(es: seq<Expense>, start: Option<Date>, end: Option<Date>, c: nat)
    ensures multiset(Select(es, start, end, Some(c))) <= multiset(Select(es, start, end, None))
  {
    if es != [] {
      CategoryNarrows(es[1..], start, end, c);
    }
  }
}
