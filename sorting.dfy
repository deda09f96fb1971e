/** The list view: sorted(expenses, key=<date parsed as dd/mm/yyyy>,
    reverse=True). Python's sort is stable, and reverse=True keeps records
    with equal keys in their original order. */
module Sorting {
  import opened Options
  import opened DateText
  import opened Records

  /** The sort key of a record. Only SortedView sorts, and only once every
      date has parsed, so the stand-in date for unparseable text never
      takes part in a comparison. */
  function DateOf(r: Record): Date {
    match ParseDmy(r.date)
    case Some(d) => d
    case None => Date(0, 0, 0)
  }

  /** Most recent first. */
  predicate Descending(s: seq<Record>) {
    forall i, j :: 0 <= i < j < |s| ==> NotAfter(DateOf(s[j]), DateOf(s[i]))
  }

  /** The records of s whose key is d, in their order in s. */
  function OnDate(s: seq<Record>, d: Date): seq<Record> {
    if s == [] then []
    else (if DateOf(s[0]) == d then [s[0]] else []) + OnDate(s[1..], d)
  }

  /** Places x, which came before every record of s, ahead of the first
      record of s that is not later than x. */
  function Insert(x: Record, s: seq<Record>): seq<Record> {
    if s == [] || NotAfter(DateOf(s[0]), DateOf(x)) then [x] + s
    else [s[0]] + Insert(x, s[1..])
  }

  function SortDesc(s: seq<Record>): seq<Record> {
    if s == [] then [] else Insert(s[0], SortDesc(s[1..]))
  }

  lemma {:induction false} InsertPermutes(x: Record, s: seq<Record>)
    ensures multiset(Insert(x, s)) == multiset(s) + multiset{x}
  {
    if s != [] && !NotAfter(DateOf(s[0]), DateOf(x)) {
      InsertPermutes(x, s[1..]);
      assert s == [s[0]] + s[1..];
    }
  }

  lemma {:induction false} InsertDescending(x: Record, s: seq<Record>)
    requires Descending(s)
    ensures Descending(Insert(x, s))
  {
    if s == [] || NotAfter(DateOf(s[0]), DateOf(x)) {
      var r := [x] + s;
      forall i, j | 0 <= i < j < |r| ensures NotAfter(DateOf(r[j]), DateOf(r[i])) {
        if i == 0 {
          NotAfterIsTotalOrder(DateOf(r[j]), DateOf(s[0]), DateOf(x));
        }
      }
    } else {
      var t := Insert(x, s[1..]);
      InsertDescending(x, s[1..]);
      InsertPermutes(x, s[1..]);
      forall j | 0 <= j < |t| ensures NotAfter(DateOf(t[j]), DateOf(s[0])) {
        assert t[j] in multiset(t);
        if t[j] == x {
          NotAfterIsTotalOrder(DateOf(x), DateOf(s[0]), DateOf(x));
        } else {
          assert t[j] in s[1..];
        }
      }
    }
  }

  lemma {:induction false} InsertOnDate(x: Record, s: seq<Record>, d: Date)
    ensures OnDate(Insert(x, s), d) == (if DateOf(x) == d then [x] else []) + OnDate(s, d)
  {
    if s == [] || NotAfter(DateOf(s[0]), DateOf(x)) {
      assert ([x] + s)[1..] == s;
    } else {
      InsertOnDate(x, s[1..], d);
      NotAfterIsTotalOrder(DateOf(s[0]), DateOf(x), DateOf(x));
      assert ([s[0]] + Insert(x, s[1..]))[1..] == Insert(x, s[1..]);
    }
  }

  /** The sorted list is the same records, most recent first, and the
      records of any one date come in their original order (stability). */
  lemma {:induction false} SortDescCorrect(s: seq<Record>)
    ensures Descending(SortDesc(s))
    ensures multiset(SortDesc(s)) == multiset(s)
    ensures forall d :: OnDate(SortDesc(s), d) == OnDate(s, d)
  {
    if s != [] {
      SortDescCorrect(s[1..]);
      InsertDescending(s[0], SortDesc(s[1..]));
      InsertPermutes(s[0], SortDesc(s[1..]));
      assert s == [s[0]] + s[1..];
      forall d ensures OnDate(SortDesc(s), d) == OnDate(s, d) {
        InsertOnDate(s[0], SortDesc(s[1..]), d);
      }
    }
  }

  /** The date text of the first record whose date does not parse as
      "dd/mm/yyyy": sorted() computes the keys in list order and raises on it. */
  function FirstUnparseable(s: seq<Record>): (bad: Option<string>)
    ensures bad.None? <==> forall i :: 0 <= i < |s| ==> ParseDmy(s[i].date).Some?
    ensures bad.Some? ==> exists i :: (0 <= i < |s| && s[i].date == bad.value
      && ParseDmy(s[i].date).None? && forall j :: 0 <= j < i ==> ParseDmy(s[j].date).Some?)
  {
    if s == [] then None
    else if ParseDmy(s[0].date).None? then Some(s[0].date)
    else
      FirstUnparseable(s[1..])
  }

  /** The list view, or the text of the date that makes the sort raise. */
  function SortedView(s: seq<Record>): (view: Result<seq<Record>, string>)
    ensures view.Failure? <==> exists i :: 0 <= i < |s| && ParseDmy(s[i].date).None?
  {
    match FirstUnparseable(s)
    case Some(date) => Failure(date)
    case None => Success(SortDesc(s))
  }

  /** A view that succeeds holds exactly the stored records, most recent
      first, with the records of one day in the order they were stored. */
  lemma SortedViewCorrect(s: seq<Record>)
    requires SortedView(s).Success?
    ensures var v := SortedView(s).value;
      && multiset(v) == multiset(s)
      && (forall i :: 0 <= i < |v| ==> ParseDmy(v[i].date).Some?)
      && (forall i, j :: 0 <= i < j < |v| ==> NotAfter(ParseDmy(v[j].date).value, ParseDmy(v[i].date).value))
      && (forall d :: OnDate(v, d) == OnDate(s, d))
  {
    var v := SortDesc(s);
    SortDescCorrect(s);
    forall i | 0 <= i < |v| ensures ParseDmy(v[i].date).Some? {
      assert v[i] in multiset(s);
    }
  }
}
