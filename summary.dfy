/** The summary panel and the pie chart's data: the grand total, the totals
    per category in order of first appearance, and the highest category. */
module Summary {
  import opened Options
  import opened Records

  /** sum(expense['amount'] for expense in expenses), in cents. */
  function Total(s: seq<Record>): int {
    if s == [] then 0 else s[0].amount + Total(s[1..])
  }

  /** The sum of the amounts of the records filed under category c. */
  function CategorySum(s: seq<Record>, c: string): int {
    if s == [] then 0
    else (if s[0].category == c then s[0].amount else 0) + CategorySum(s[1..], c)
  }

  function Categories(s: seq<Record>): set<string> {
    set r | r in s :: r.category
  }

  /** The position of the first record filed under c, or |s| if there is none. */
  function FirstIndex(s: seq<Record>, c: string): (i: nat)
    ensures i <= |s|
    ensures i < |s| <==> c in Categories(s)
    ensures i < |s| ==> s[i].category == c
    ensures forall j :: 0 <= j < i ==> s[j].category != c
  {
    if s == [] then 0
    else if s[0].category == c then 0
    else
      assert forall r :: r in s[1..] ==> r in s;
      assert s == [s[0]] + s[1..];
      1 + FirstIndex(s[1..], c)
  }

  /** An insertion-ordered dict from category to running total: keys in
      insertion order, and the values. */
  datatype Tally = Tally(keys: seq<string>, totals: map<string, int>) {
    /** Every key once, and exactly the keys that have a value. */
    predicate Valid() {
      && (forall i, j :: 0 <= i < j < |keys| ==> keys[i] != keys[j])
      && (forall k :: k in keys ==> k in totals)
      && (forall k :: k in totals ==> k in keys)
    }
  }

  /** One turn of the loop body:
      category_totals[c] = category_totals.get(c, 0) + amount. A new key goes
      to the end of the dict's order. */
  function Tallied(t: Tally, r: Record): Tally {
    var c := r.category;
    if c in t.totals then Tally(t.keys, t.totals[c := t.totals[c] + r.amount])
    else Tally(t.keys + [c], t.totals[c := 0 + r.amount])
  }

  /** The dict the loop builds over the records, in list order. */
  function TallyOf(s: seq<Record>): (t: Tally)
    ensures t.Valid()
  {
    if s == [] then Tally([], map[]) else Tallied(TallyOf(s[..|s| - 1]), s[|s| - 1])
  }

  lemma {:induction false} TotalAppend(s: seq<Record>, r: Record)
    ensures Total(s + [r]) == Total(s) + r.amount
  {
    if s != [] {
      assert (s + [r])[1..] == s[1..] + [r];
      TotalAppend(s[1..], r);
    }
  }

  lemma {:induction false} CategorySumAppend(s: seq<Record>, r: Record, c: string)
    ensures CategorySum(s + [r], c) == CategorySum(s, c) + (if r.category == c then r.amount else 0)
  {
    if s != [] {
      assert (s + [r])[1..] == s[1..] + [r];
      CategorySumAppend(s[1..], r, c);
    }
  }

  lemma {:induction false} CategorySumAbsent(s: seq<Record>, c: string)
    requires c !in Categories(s)
    ensures CategorySum(s, c) == 0
  {
    if s != [] {
      assert forall r :: r in s[1..] ==> r in s;
      CategorySumAbsent(s[1..], c);
    }
  }

  lemma {:induction false} FirstIndexAppend(s: seq<Record>, r: Record, c: string)
    ensures c in Categories(s) ==> FirstIndex(s + [r], c) == FirstIndex(s, c)
    ensures c !in Categories(s) && c == r.category ==> FirstIndex(s + [r], c) == |s|
  {
    var i := FirstIndex(s, c);
    var t := s + [r];
    if c in Categories(s) {
      assert t[i] == s[i];
    } else if c == r.category {
      assert t[|s|] == r;
    }
  }

  /** The loop's dict has a key for each category that occurs and no other. */
  lemma {:induction false} TallyKeysAreCategories(s: seq<Record>)
    ensures forall c :: c in TallyOf(s).totals <==> c in Categories(s)
  {
    if s != [] {
      var p, r := s[..|s| - 1], s[|s| - 1];
      assert s == p + [r];
      TallyKeysAreCategories(p);
      assert Categories(s) == Categories(p) + {r.category};
    }
  }

  /** Under each key the loop's dict holds the sum of that category's amounts. */
  lemma {:induction false} TallyTotalsAreSums(s: seq<Record>)
    ensures forall c :: c in TallyOf(s).totals ==> TallyOf(s).totals[c] == CategorySum(s, c)
  {
    if s != [] {
      var p, r := s[..|s| - 1], s[|s| - 1];
      assert s == p + [r];
      TallyTotalsAreSums(p);
      TallyKeysAreCategories(p);
      var t := TallyOf(s);
      forall c | c in t.totals ensures t.totals[c] == CategorySum(s, c) {
        CategorySumAppend(p, r, c);
        if c !in Categories(p) {
          CategorySumAbsent(p, c);
        }
      }
    }
  }

  /** The loop's dict orders its keys by the first occurrence of each
      category in the record list. */
  lemma {:induction false} TallyKeysInFirstOccurrenceOrder(s: seq<Record>)
    ensures forall i, j :: 0 <= i < j < |TallyOf(s).keys| ==>
      FirstIndex(s, TallyOf(s).keys[i]) < FirstIndex(s, TallyOf(s).keys[j])
  {
    if s != [] {
      var p, r := s[..|s| - 1], s[|s| - 1];
      assert s == p + [r];
      TallyKeysInFirstOccurrenceOrder(p);
      TallyKeysAreCategories(p);
      var tp, t := TallyOf(p), TallyOf(s);
      forall i, j | 0 <= i < j < |t.keys| ensures FirstIndex(s, t.keys[i]) < FirstIndex(s, t.keys[j]) {
        assert t.keys[i] == tp.keys[i];
        FirstIndexAppend(p, r, t.keys[i]);
        FirstIndexAppend(p, r, t.keys[j]);
        if j < |tp.keys| {
          assert t.keys[j] == tp.keys[j];
        }
      }
    }
  }

  /** The values of the dict, added up in key order. */
  function SumOfTotals(keys: seq<string>, totals: map<string, int>): int
    requires forall k :: k in keys ==> k in totals
  {
    if keys == [] then 0
    else SumOfTotals(keys[..|keys| - 1], totals) + totals[keys[|keys| - 1]]
  }

  lemma {:induction false} SumOfTotalsUpdate(keys: seq<string>, totals: map<string, int>, c: string, v: int)
    requires forall k :: k in keys ==> k in totals
    requires forall i, j :: 0 <= i < j < |keys| ==> keys[i] != keys[j]
    decreases |keys|
    ensures c !in keys ==> SumOfTotals(keys, totals[c := v]) == SumOfTotals(keys, totals)
    ensures c in keys ==> SumOfTotals(keys, totals[c := v]) == SumOfTotals(keys, totals) - totals[c] + v
  {
    if keys != [] {
      var front := keys[..|keys| - 1];
      assert forall k :: k in front ==> k in keys;
      SumOfTotalsUpdate(front, totals, c, v);
      if c in keys && c != keys[|keys| - 1] {
        assert c in front by {
          var i :| 0 <= i < |keys| && keys[i] == c;
          assert front[i] == c;
        }
      }
    }
  }

  /** One turn of the loop adds the record's amount to the sum of the dict's values. */
  lemma TalliedAddsAmount(t: Tally, r: Record)
    requires t.Valid()
    ensures forall k :: k in Tallied(t, r).keys ==> k in Tallied(t, r).totals
    ensures SumOfTotals(Tallied(t, r).keys, Tallied(t, r).totals) == SumOfTotals(t.keys, t.totals) + r.amount
  {
    var c := r.category;
    if c in t.totals {
      SumOfTotalsUpdate(t.keys, t.totals, c, t.totals[c] + r.amount);
    } else {
      var u := Tallied(t, r);
      SumOfTotalsUpdate(t.keys, t.totals, c, r.amount);
      assert u.keys[..|u.keys| - 1] == t.keys;
    }
  }

  /** The category totals add up to the grand total: the pie chart's slices
      together are the whole. */
  lemma {:induction false} TallyAddsUpToTotal(s: seq<Record>)
    ensures SumOfTotals(TallyOf(s).keys, TallyOf(s).totals) == Total(s)
  {
    if s != [] {
      var p, r := s[..|s| - 1], s[|s| - 1];
      assert s == p + [r];
      TallyAddsUpToTotal(p);
      TotalAppend(p, r);
      TalliedAddsAmount(TallyOf(p), r);
    }
  }

  /** The position of the first key with the largest total, as
      max(category_totals.items(), key=lambda x: x[1]) picks it: a later key
      replaces the current best only if its total is strictly larger. */
  function BestIndex(keys: seq<string>, totals: map<string, int>): (b: nat)
    requires |keys| > 0
    requires forall k :: k in keys ==> k in totals
    ensures b < |keys|
    ensures forall j :: 0 <= j < |keys| ==> totals[keys[j]] <= totals[keys[b]]
    ensures forall j :: 0 <= j < b ==> totals[keys[j]] < totals[keys[b]]
  {
    if |keys| == 1 then 0
    else
      var front := keys[..|keys| - 1];
      assert forall k :: k in front ==> k in keys;
      var b := BestIndex(front, totals);
      assert keys[b] == front[b];
      if totals[keys[|keys| - 1]] > totals[keys[b]] then |keys| - 1 else b
  }

  /** The category and total the summary reports as highest, or nothing
      when the dict is empty: a key with the largest total, and no key before
      it with a total as large. */
  function Highest(t: Tally): (h: Option<(string, int)>)
    requires t.Valid()
    ensures h.None? <==> t.keys == []
    ensures h.Some? ==> h.value.0 in t.totals && h.value.1 == t.totals[h.value.0]
    ensures h.Some? ==> forall k :: k in t.totals ==> t.totals[k] <= h.value.1
    ensures h.Some? ==> forall i, j :: 0 <= i < j < |t.keys| && t.keys[j] == h.value.0 ==> t.totals[t.keys[i]] < h.value.1
  {
    if t.keys == [] then None
    else
      var b := BestIndex(t.keys, t.totals);
      Some((t.keys[b], t.totals[t.keys[b]]))
  }

  /** What update_summary shows: the grand total and, when there are
      records, the highest category with its total. */
  datatype SummaryLine = SummaryLine(total: int, highest: Option<(string, int)>)

  function SummaryOf(s: seq<Record>): SummaryLine {
    SummaryLine(Total(s), Highest(TallyOf(s)))
  }

  /** No highest category is reported exactly when there are no records. */
  lemma SummaryOfEmpty(s: seq<Record>)
    ensures SummaryOf(s).total == Total(s)
    ensures SummaryOf(s).highest.None? <==> s == []
  {
    if s != [] {
      TallyKeysAreCategories(s);
      assert s[0].category in Categories(s);
      assert s[0].category in TallyOf(s).keys;
    }
  }

  /** The highest category is one that occurs, reported with the sum of its
      amounts, and no category has a larger sum. */
  lemma HighestIsLargest(s: seq<Record>, c: string, v: int)
    requires SummaryOf(s).highest == Some((c, v))
    ensures c in Categories(s) && v == CategorySum(s, c)
    ensures forall c' :: c' in Categories(s) ==> CategorySum(s, c') <= v
  {
    TallyKeysAreCategories(s);
    TallyTotalsAreSums(s);
  }

  /** Of the categories with the largest sum, the one reported is the one
      that occurs first in the record list. */
  lemma HighestIsFirstOfEqual(s: seq<Record>, c: string, v: int, c': string)
    requires SummaryOf(s).highest == Some((c, v))
    requires c' in Categories(s) && c' != c && CategorySum(s, c') == v
    ensures FirstIndex(s, c) < FirstIndex(s, c')
  {
    TallyKeysAreCategories(s);
    TallyTotalsAreSums(s);
    TallyKeysInFirstOccurrenceOrder(s);
    var t := TallyOf(s);
    var i :| 0 <= i < |t.keys| && t.keys[i] == c;
    var j :| 0 <= j < |t.keys| && t.keys[j] == c';
    assert t.totals[t.keys[j]] == v;
    assert !(j < i);
  }
}
