/** An expense record and the pure functions that say what the store's
    in-place updates of its record list must produce. */
module Records {
  import opened Options
  import opened DateText

  /** One expense as the tracker keeps it in its list and its JSON file.
      The date is text because the file may hold any string there; the
      amount is in whole cents. */
  datatype Record = Record(date: string, category: string, amount: int, description: string)

  /** A record agrees with the values of a selected row: same date, same
      category, same amount as shown (with two decimals, so equal in cents)
      and same description. */
  predicate Matches(r: Record, row: Record) {
    r.date == row.date && r.category == row.category
    && r.amount == row.amount && r.description == row.description
  }

  /** The list once the first record matching row is taken out, as the
      delete loop's remove-then-break leaves it. */
  function RemoveFirst(s: seq<Record>, row: Record): seq<Record> {
    if s == [] then []
    else if Matches(s[0], row) then s[1..]
    else [s[0]] + RemoveFirst(s[1..], row)
  }

  /** When nothing matches, nothing is removed. */
  lemma {:induction false} RemoveFirstNoMatch(s: seq<Record>, row: Record)
    requires forall j :: 0 <= j < |s| ==> !Matches(s[j], row)
    ensures RemoveFirst(s, row) == s
  {
    if s != [] {
      RemoveFirstNoMatch(s[1..], row);
      assert [s[0]] + s[1..] == s;
    }
  }

  /** When record i is the first match, exactly that record goes and the
      others keep their order. */
  lemma {:induction false} RemoveFirstAt(s: seq<Record>, row: Record, i: int)
    requires 0 <= i < |s| && Matches(s[i], row)
    requires forall j :: 0 <= j < i ==> !Matches(s[j], row)
    ensures RemoveFirst(s, row) == s[..i] + s[i + 1..]
  {
    if i > 0 {
      RemoveFirstAt(s[1..], row, i - 1);
      assert s[..i] == [s[0]] + s[1..][..i - 1];
      assert s[i + 1..] == s[1..][i..];
    }
  }

  /** Removing the first match takes out one record and no other. */
  lemma RemoveFirstCount(s: seq<Record>, row: Record, i: int)
    requires 0 <= i < |s| && Matches(s[i], row)
    requires forall j :: 0 <= j < i ==> !Matches(s[j], row)
    ensures |RemoveFirst(s, row)| == |s| - 1
    ensures multiset(RemoveFirst(s, row)) + multiset{s[i]} == multiset(s)
  {
    RemoveFirstAt(s, row, i);
    assert s == s[..i] + [s[i]] + s[i + 1..];
  }

  /** One record after the date migration: only its date may change. */
  function Normalized(r: Record): Record {
    r.(date := NormalizeDate(r.date))
  }

  /** The record list after the migration loop over every record. */
  function NormalizeAll(s: seq<Record>): seq<Record> {
    seq(|s|, i requires 0 <= i < |s| => Normalized(s[i]))
  }

  /** The migration keeps every field but the date of a record; it only
      rewrites a valid "yyyy-mm-dd" date, to the same calendar date; and a
      second pass changes nothing more. */
  lemma NormalizedMeaning(r: Record)
    ensures var n := Normalized(r);
      && n.category == r.category && n.amount == r.amount && n.description == r.description
      && (ParseDmy(r.date).Some? ==> n.date == r.date)
      && (ParseDmy(r.date).None? && ParseYmd(r.date).Some? ==> ParseDmy(n.date) == ParseYmd(r.date))
      && (ParseDmy(r.date).None? && ParseYmd(r.date).None? ==> n.date == r.date)
      && Normalized(n) == n
  {
    NormalizeDateMeaning(r.date);
    NormalizeDateIdempotent(r.date);
  }

  /** The migration loop keeps the order and the number of the records, and
      running it twice is the same as running it once. */
  lemma NormalizeAllIdempotent(s: seq<Record>)
    ensures |NormalizeAll(s)| == |s|
    ensures NormalizeAll(NormalizeAll(s)) == NormalizeAll(s)
  {
    var n := NormalizeAll(s);
    forall i | 0 <= i < |s| ensures NormalizeAll(n)[i] == n[i] {
      NormalizedMeaning(s[i]);
    }
  }
}
