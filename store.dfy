/** The ExpenseTracker's record store with the GUI taken away: the list of
    records it holds, the callbacks that change that list, and what the
    list view, the summary panel and the pie chart are computed from. */
module ExpenseStore {
  import opened Options
  import opened DateText
  import opened Records
  import opened Sorting
  import opened Summary

  /** The three ways add_expense can refuse a new expense. */
  datatype AddError =
    | InvalidAmount      // the amount text is not a number: "Please enter a valid amount!"
    | MissingCategory    // "Please select a category!"
    | NonPositiveAmount  // "Amount must be greater than 0!"

  class Store {
    /** The records in the order they were loaded or added. */
    var expenses: seq<Record>

    /** Start-up: the list read from the file, or an empty list when the
        file is missing or cannot be read (loaded is None). */
    constructor (loaded: Option<seq<Record>>)
      ensures expenses == (if loaded.Some? then loaded.value else [])
    {
      expenses := if loaded.Some? then loaded.value else [];
    }

    /** add_expense: the date comes from the date picker, so it is a valid
        date; the amount is None when its text is not a number. The amount
        is checked for a number first, then the category, then the sign. */
    method Add(date: Date, category: string, amount: Option<int>, description: string)
      returns (error: Option<AddError>)
      requires ValidDate(date)
      modifies this
      ensures amount.None? ==> error == Some(InvalidAmount)
      ensures amount.Some? && category == "" ==> error == Some(MissingCategory)
      ensures amount.Some? && category != "" && amount.value <= 0 ==> error == Some(NonPositiveAmount)
      ensures amount.Some? && category != "" && amount.value > 0 ==> error.None?
      ensures error.Some? ==> expenses == old(expenses)
      ensures error.None? ==>
        expenses == old(expenses) + [Record(FormatDmy(date), category, amount.value, description)]
    {
      if amount.None? {
        return Some(InvalidAmount);
      }
      if category == "" {
        return Some(MissingCategory);
      }
      if amount.value <= 0 {
        return Some(NonPositiveAmount);
      }
      expenses := expenses + [Record(FormatDmy(date), category, amount.value, description)];
      error := None;
    }

    /** delete_expense: with a row selected and the deletion confirmed, the
        first record matching the row's values is removed, if any. */
    method Delete(selection: Option<Record>, confirmed: bool)
      modifies this
      ensures selection.None? || !confirmed ==> expenses == old(expenses)
      ensures selection.Some? && confirmed ==> expenses == RemoveFirst(old(expenses), selection.value)
    {
      if selection.None? || !confirmed {
        return;
      }
      var row := selection.value;
      var i := 0;
      while i < |expenses| && !Matches(expenses[i], row)
        invariant 0 <= i <= |expenses|
        invariant forall j :: 0 <= j < i ==> !Matches(expenses[j], row)
      {
        i := i + 1;
      }
      if i < |expenses| {
        RemoveFirstAt(expenses, row, i);
        expenses := expenses[..i] + expenses[i + 1..];
      } else {
        RemoveFirstNoMatch(expenses, row);
      }
    }

    /** The migration loop at the start of refresh_expense_list: each date
        that does not parse as "dd/mm/yyyy" but does as "yyyy-mm-dd" is
        overwritten in place. */
    method NormalizeDates()
      modifies this
      ensures expenses == NormalizeAll(old(expenses))
    {
      var i := 0;
      while i < |expenses|
        invariant 0 <= i <= |expenses| == |old(expenses)|
        invariant forall k :: 0 <= k < i ==> expenses[k] == Normalized(old(expenses)[k])
        invariant forall k :: i <= k < |expenses| ==> expenses[k] == old(expenses)[k]
      {
        var r := expenses[i];
        if ParseDmy(r.date).None? {
          match ParseYmd(r.date) {
            case Some(d) =>
              r := r.(date := FormatDmy(d));
            case None =>
          }
        }
        assert r == Normalized(old(expenses)[i]);
        expenses := expenses[i := r];
        i := i + 1;
      }
    }

    /** The loop that builds category_totals, shared by update_summary and
        show_pie_chart. */
    method CategoryTotals() returns (t: Tally)
      ensures t == TallyOf(expenses)
    {
      var keys: seq<string> := [];
      var totals: map<string, int> := map[];
      for i := 0 to |expenses|
        invariant Tally(keys, totals) == TallyOf(expenses[..i])
      {
        assert expenses[..i + 1][..i] == expenses[..i];
        var category := expenses[i].category;
        var sofar := if category in totals then totals[category] else 0;
        if category !in totals {
          keys := keys + [category];
        }
        totals := totals[category := sofar + expenses[i].amount];
      }
      assert expenses[..|expenses|] == expenses;
      t := Tally(keys, totals);
    }

    /** update_summary: the grand total and, if any category was seen, the
        highest one. */
    method UpdateSummary() returns (line: SummaryLine)
      ensures line == SummaryOf(expenses)
    {
      var total := Total(expenses);
      var t := CategoryTotals();
      var highest := None;
      if t.keys != [] {
        highest := Highest(t);
      }
      line := SummaryLine(total, highest);
    }

    /** refresh_expense_list: migrate the dates, sort for the list view, and
        update the summary; when the sort raises, the summary is not updated. */
    method Refresh() returns (view: Result<seq<Record>, string>, line: Option<SummaryLine>)
      modifies this
      ensures expenses == NormalizeAll(old(expenses))
      ensures view == SortedView(expenses)
      ensures line == if view.Success? then Some(SummaryOf(expenses)) else None
    {
      NormalizeDates();
      view := SortedView(expenses);
      line := None;
      if view.Success? {
        var s := UpdateSummary();
        line := Some(s);
      }
    }

    /** show_pie_chart's data: nothing (an information message instead)
        when there are no records, otherwise the categories in order of first
        appearance and the sum of each one's amounts. */
    method PieChart() returns (slices: Option<(seq<string>, seq<int>)>)
      ensures slices.None? <==> expenses == []
      ensures slices.Some? ==>
        var (labels, amounts) := slices.value;
        && labels == TallyOf(expenses).keys
        && |amounts| == |labels|
        && forall i :: 0 <= i < |labels| ==> amounts[i] == CategorySum(expenses, labels[i])
    {
      if expenses == [] {
        return None;
      }
      var t := CategoryTotals();
      TallyTotalsAreSums(expenses);
      var amounts := seq(|t.keys|, i requires 0 <= i < |t.keys| => t.totals[t.keys[i]]);
      slices := Some((t.keys, amounts));
    }
  }

  /** After the migration, the list view fails exactly when some stored date
      parsed in neither format. */
  lemma NormalizedViewFails(s: seq<Record>)
    ensures SortedView(NormalizeAll(s)).Failure? <==>
      exists i :: 0 <= i < |s| && ParseDmy(s[i].date).None? && ParseYmd(s[i].date).None?
  {
    var n := NormalizeAll(s);
    forall i | 0 <= i < |s|
      ensures ParseDmy(n[i].date).Some? <==> ParseDmy(s[i].date).Some? || ParseYmd(s[i].date).Some?
    {
      NormalizeDateMeaning(s[i].date);
    }
  }

  lemma {:induction false} OnDateAppend(s: seq<Record>, r: Record, d: Date)
    ensures OnDate(s + [r], d) == OnDate(s, d) + (if DateOf(r) == d then [r] else [])
  {
    if s != [] {
      assert (s + [r])[1..] == s[1..] + [r];
      OnDateAppend(s[1..], r, d);
    }
  }

  /** A record added through Add keeps the list view working, appears in it
      once more than before, and comes after every record of the same day
      that was already there. */
  lemma ViewAfterAdd(s: seq<Record>, r: Record, d: Date)
    requires ValidDate(d) && r.date == FormatDmy(d)
    requires SortedView(s).Success?
    ensures SortedView(s + [r]).Success?
    ensures multiset(SortedView(s + [r]).value) == multiset(SortedView(s).value) + multiset{r}
    ensures OnDate(SortedView(s + [r]).value, d) == OnDate(SortedView(s).value, d) + [r]
  {
    FormatDmyRoundTrip(d);
    var t := s + [r];
    forall i | 0 <= i < |t| ensures ParseDmy(t[i].date).Some? {
      if i < |s| {
        assert t[i] == s[i];
      }
    }
    SortedViewCorrect(s);
    SortedViewCorrect(t);
    OnDateAppend(s, r, d);
  }

  /** The first scenario record: lunch on 1 June 2024 for 12.50. */
  function Lunch(): Record {
    Record("01/06/2024", "Food", 1250, "lunch")
  }

  /** The second scenario record: a bus ticket on 2 June 2024 for 5.00. */
  function Bus(): Record {
    Record("02/06/2024", "Transport", 500, "bus")
  }

  lemma ScenarioDates()
    ensures ParseDmy(Lunch().date) == Some(Date(1, 6, 2024))
    ensures ParseDmy(Bus().date) == Some(Date(2, 6, 2024))
  {
    assert FormatDmy(Date(1, 6, 2024)) == Lunch().date;
    FormatDmyRoundTrip(Date(1, 6, 2024));
    assert FormatDmy(Date(2, 6, 2024)) == Bus().date;
    FormatDmyRoundTrip(Date(2, 6, 2024));
  }

  /** Of two records with parseable dates, the later one is listed first. */
  lemma LaterListedFirst(a: Record, b: Record)
    requires ParseDmy(a.date).Some? && ParseDmy(b.date).Some?
    requires !NotAfter(ParseDmy(b.date).value, ParseDmy(a.date).value)
    ensures SortedView([a, b]) == Success([b, a])
  {
    var s := [a, b];
    assert s[1..] == [b];
    assert FirstUnparseable(s) == None;
    assert SortDesc([b]) == [b];
    assert Insert(a, [b]) == [b, a];
  }

  /** Of the two scenario records, the later bus ticket is listed first. */
  lemma ScenarioView()
    ensures SortedView([Lunch(), Bus()]) == Success([Bus(), Lunch()])
  {
    ScenarioDates();
    LaterListedFirst(Lunch(), Bus());
  }

  /** Their total is 17.50 and Food is the highest category. */
  lemma ScenarioSummary()
    ensures SummaryOf([Lunch(), Bus()]) == SummaryLine(1750, Some(("Food", 1250)))
  {
    var s := [Lunch(), Bus()];
    assert s[1..] == [Bus()];
    assert s[..1] == [Lunch()];
    assert TallyOf([Lunch()]) == Tally(["Food"], map["Food" := 1250]);
    assert TallyOf(s) == Tally(["Food", "Transport"], map["Food" := 1250, "Transport" := 500]);
  }
}
