/**
 * Daily bucketing, as both history routes do it: a fold over the fetched
 * consumptions into a dictionary keyed by date string, adding
 * `perUnit * quantity` to the entry of each consumption's day, then
 * `Object.values` (keys in order of first appearance).
 */
module Bucketing {
  import opened Records
  import opened Sorting

  /** The sum of nutrient `n` over the rows whose day is `d`. */
  function AmountOn(rows: seq<Row>, key: Row -> int, d: int, n: Nutrient): real
  {
    if rows == [] then 0.0
    else
      var last := rows[|rows| - 1];
      AmountOn(rows[..|rows| - 1], key, d, n) + (if key(last) == d then Amount(last, n) else 0.0)
  }

  /** The sum of nutrient `n` over all rows. */
  function Total(rows: seq<Row>, n: Nutrient): real
  {
    if rows == [] then 0.0 else Total(rows[..|rows| - 1], n) + Amount(rows[|rows| - 1], n)
  }

  ghost predicate Distinct(ks: seq<int>)
  {
    forall i, j :: 0 <= i < j < |ks| ==> ks[i] != ks[j]
  }

  /** The days of the rows, each once, in order of first appearance. */
  function KeysInOrder(rows: seq<Row>, key: Row -> int): (ks: seq<int>)
    ensures Distinct(ks)
    ensures forall i :: 0 <= i < |rows| ==> key(rows[i]) in ks
    ensures forall k :: 0 <= k < |ks| ==> exists i :: 0 <= i < |rows| && key(rows[i]) == ks[k]
  {
    if rows == [] then []
    else
      var prefix := rows[..|rows| - 1];
      var ks := KeysInOrder(prefix, key);
      assert forall i :: 0 <= i < |prefix| ==> rows[i] == prefix[i];
      if key(rows[|rows| - 1]) in ks then ks else ks + [key(rows[|rows| - 1])]
  }

  /** The entries for the days `ks`, each with the sums of its rows. */
  function EntriesFor(rows: seq<Row>, key: Row -> int, ks: seq<int>): (es: seq<HistoryEntry>)
    ensures |es| == |ks|
    ensures forall k :: 0 <= k < |ks| ==>
      es[k] == HistoryEntry(ks[k], AmountOn(rows, key, ks[k], Calories), AmountOn(rows, key, ks[k], Protein))
  {
    seq(|ks|, k requires 0 <= k < |ks| =>
      HistoryEntry(ks[k], AmountOn(rows, key, ks[k], Calories), AmountOn(rows, key, ks[k], Protein)))
  }

  /** What the fold and `Object.values` produce: one entry per day, in order of first appearance. */
  function Buckets(rows: seq<Row>, key: Row -> int): seq<HistoryEntry>
  {
    EntriesFor(rows, key, KeysInOrder(rows, key))
  }

  /** The entry of day `d`: the sums of its rows. */
  function EntryOn(rows: seq<Row>, key: Row -> int, d: int): HistoryEntry
  {
    HistoryEntry(d, AmountOn(rows, key, d, Calories), AmountOn(rows, key, d, Protein))
  }

  /** The dictionary and its key order after folding the first `i` rows. */
  ghost predicate Folded(rows: seq<Row>, key: Row -> int, i: int, acc: map<int, HistoryEntry>, order: seq<int>)
    requires 0 <= i <= |rows|
  {
    && order == KeysInOrder(rows[..i], key)
    && (forall d :: d in acc <==> d in order)
    && (forall d :: d in acc ==> acc[d] == EntryOn(rows[..i], key, d))
  }

  /** `acc[date].calories += …; acc[date].protein += …`: one row added to its day's entry. */
  function AddRow(e: HistoryEntry, r: Row): HistoryEntry
  {
    e.(calories := e.calories + Amount(r, Calories), protein := e.protein + Amount(r, Protein))
  }

  /**
   * The fold itself: a dictionary updated in place, one consumption at a
   * time, plus the order in which its keys were first written.
   */
  method Aggregate(rows: seq<Row>, key: Row -> int) returns (entries: seq<HistoryEntry>)
    ensures entries == Buckets(rows, key)
  {
    var acc: map<int, HistoryEntry> := map[];
    var order: seq<int> := [];
    var i := 0;
    while i < |rows|
      invariant 0 <= i <= |rows|
      invariant Folded(rows, key, i, acc, order)
    {
      var row := rows[i];
      var d := key(row);
      ghost var acc0, order0 := acc, order;
      var entry := HistoryEntry(d, 0.0, 0.0);
      if d in acc {
        entry := acc[d];
      } else {
        order := order + [d];
      }
      acc := acc[d := AddRow(entry, row)];
      FoldStep(rows, key, i, acc0, order0, entry, order, acc);
      i := i + 1;
    }
    entries := seq(|order|, k requires 0 <= k < |order| => acc[order[k]]);
    FoldedEntries(rows, key, acc, order);
    assert forall k :: 0 <= k < |order| ==> entries[k] == Buckets(rows, key)[k];
  }

  /** One step of the fold keeps the dictionary the sums of the rows folded so far. */
  lemma FoldStep(rows: seq<Row>, key: Row -> int, i: int, acc0: map<int, HistoryEntry>, order0: seq<int>,
                 entry: HistoryEntry, order1: seq<int>, acc1: map<int, HistoryEntry>)
    requires 0 <= i < |rows| && Folded(rows, key, i, acc0, order0)
    requires var d := key(rows[i]);
      && entry == (if d in acc0 then acc0[d] else HistoryEntry(d, 0.0, 0.0))
      && order1 == (if d in acc0 then order0 else order0 + [d])
      && acc1 == acc0[d := AddRow(entry, rows[i])]
    ensures Folded(rows, key, i + 1, acc1, order1)
  {
    KeysStep(rows, key, i);
    var d := key(rows[i]);
    FoldStepOwnDay(rows, key, i, acc0, entry);
    forall e | e in acc1 && e != d ensures acc1[e] == EntryOn(rows[..i + 1], key, e) {
      FoldStepOtherDay(rows, key, i, e);
    }
  }

  /** The day of the folded row: its running sums grow by the row's amounts. */
  lemma FoldStepOwnDay(rows: seq<Row>, key: Row -> int, i: int, acc0: map<int, HistoryEntry>, before: HistoryEntry)
    requires 0 <= i < |rows|
    requires forall d :: d in acc0 ==> acc0[d] == EntryOn(rows[..i], key, d)
    requires forall d :: d in acc0 <==> d in KeysInOrder(rows[..i], key)
    requires var d := key(rows[i]); before == if d in acc0 then acc0[d] else HistoryEntry(d, 0.0, 0.0)
    ensures AddRow(before, rows[i]) == EntryOn(rows[..i + 1], key, key(rows[i]))
  {
    var d := key(rows[i]);
    AmountStep(rows, key, i, d, Calories);
    AmountStep(rows, key, i, d, Protein);
    if d !in acc0 {
      NewDayWasEmpty(rows[..i], key, d, Calories);
      NewDayWasEmpty(rows[..i], key, d, Protein);
    }
  }

  /** Any other day: its sums are those before the row. */
  lemma FoldStepOtherDay(rows: seq<Row>, key: Row -> int, i: int, e: int)
    requires 0 <= i < |rows| && key(rows[i]) != e
    ensures EntryOn(rows[..i + 1], key, e) == EntryOn(rows[..i], key, e)
  {
    AmountStep(rows, key, i, e, Calories);
    AmountStep(rows, key, i, e, Protein);
  }

  /** Folding one more row adds its day to the keys when it is new. */
  lemma KeysStep(rows: seq<Row>, key: Row -> int, i: int)
    requires 0 <= i < |rows|
    ensures var ks := KeysInOrder(rows[..i], key);
      KeysInOrder(rows[..i + 1], key) == if key(rows[i]) in ks then ks else ks + [key(rows[i])]
  {
    var q := rows[..i + 1];
    assert q[..|q| - 1] == rows[..i];
  }

  /** Folding one more row adds its amount to its own day and to no other. */
  lemma AmountStep(rows: seq<Row>, key: Row -> int, i: int, e: int, n: Nutrient)
    requires 0 <= i < |rows|
    ensures AmountOn(rows[..i + 1], key, e, n)
      == AmountOn(rows[..i], key, e, n) + (if key(rows[i]) == e then Amount(rows[i], n) else 0.0)
  {
    var q := rows[..i + 1];
    assert q[..|q| - 1] == rows[..i];
  }

  /** Reading the dictionary in key order gives the buckets. */
  lemma FoldedEntries(rows: seq<Row>, key: Row -> int, acc: map<int, HistoryEntry>, order: seq<int>)
    requires Folded(rows, key, |rows|, acc, order)
    ensures |order| == |Buckets(rows, key)|
    ensures forall k :: 0 <= k < |order| ==> order[k] in acc && acc[order[k]] == Buckets(rows, key)[k]
  {
    assert rows[..|rows|] == rows;
  }

  // --- what the buckets mean ---

  /** A day on which no row falls has nothing: no zero-filled entries are needed for it. */
  lemma {:induction false} AmountOnOtherDay(rows: seq<Row>, key: Row -> int, d: int, n: Nutrient)
    requires forall i :: 0 <= i < |rows| ==> key(rows[i]) != d
    ensures AmountOn(rows, key, d, n) == 0.0
  {
    if rows != [] {
      AmountOnOtherDay(rows[..|rows| - 1], key, d, n);
    }
  }

  /**
   * One entry per distinct day: every row's day has exactly one entry, and
   * every entry's day is the day of some row.
   */
  lemma BucketsPartitionDays(rows: seq<Row>, key: Row -> int)
    ensures var es := Buckets(rows, key);
      && (forall i, j :: 0 <= i < j < |es| ==> es[i].date != es[j].date)
      && (forall i :: 0 <= i < |rows| ==> exists k :: 0 <= k < |es| && es[k].date == key(rows[i]))
      && (forall k :: 0 <= k < |es| ==> exists i :: 0 <= i < |rows| && key(rows[i]) == es[k].date)
  {
    var ks := KeysInOrder(rows, key);
    var es := Buckets(rows, key);
    forall i | 0 <= i < |rows| ensures exists k :: 0 <= k < |es| && es[k].date == key(rows[i]) {
      var k :| 0 <= k < |ks| && ks[k] == key(rows[i]);
      assert es[k].date == key(rows[i]);
    }
  }

  /** The days of a prefix of the rows are a prefix of the days of all rows. */
  lemma {:induction false} KeysOfPrefix(rows: seq<Row>, key: Row -> int, i: int)
    requires 0 <= i <= |rows|
    ensures KeysInOrder(rows[..i], key) <= KeysInOrder(rows, key)
  {
    if i < |rows| {
      var p := rows[..|rows| - 1];
      assert rows[..i] == p[..i];
      KeysOfPrefix(p, key, i);
    } else {
      assert rows[..i] == rows;
    }
  }

  /**
   * The entries come in order of first appearance: when a row of a later
   * entry's day appears, a row of every earlier entry's day has already
   * appeared.
   */
  lemma FirstAppearance(rows: seq<Row>, key: Row -> int, k1: int, k2: int, i: int)
    requires 0 <= k1 < k2 < |Buckets(rows, key)|
    requires 0 <= i < |rows| && key(rows[i]) == Buckets(rows, key)[k2].date
    ensures exists i1 :: 0 <= i1 < i && key(rows[i1]) == Buckets(rows, key)[k1].date
  {
    var ks := KeysInOrder(rows, key);
    var pre := rows[..i + 1];
    var p := KeysInOrder(pre, key);
    KeysOfPrefix(rows, key, i + 1);
    assert key(pre[i]) in p;
    var m :| 0 <= m < |p| && p[m] == ks[k2];
    assert m == k2;
    assert p[k1] == ks[k1];
    var i1 :| 0 <= i1 < |pre| && key(pre[i1]) == p[k1];
    assert i1 != i;
  }

  /** The sum of nutrient `n` over a list of entries. */
  function SumEntries(es: seq<HistoryEntry>, n: Nutrient): real
  {
    if es == [] then 0.0 else SumEntries(es[..|es| - 1], n) + EntryAmount(es[|es| - 1], n)
  }

  /** The sum over the days `ks` of what the rows have on each. */
  function SumOnDays(rows: seq<Row>, key: Row -> int, ks: seq<int>, n: Nutrient): real
  {
    if ks == [] then 0.0 else SumOnDays(rows, key, ks[..|ks| - 1], n) + AmountOn(rows, key, ks[|ks| - 1], n)
  }

  lemma {:induction false} SumEntriesFor(rows: seq<Row>, key: Row -> int, ks: seq<int>, n: Nutrient)
    ensures SumEntries(EntriesFor(rows, key, ks), n) == SumOnDays(rows, key, ks, n)
  {
    if ks != [] {
      var es := EntriesFor(rows, key, ks);
      SumEntriesFor(rows, key, ks[..|ks| - 1], n);
      assert es[..|es| - 1] == EntriesFor(rows, key, ks[..|ks| - 1]);
    }
  }

  /** One more row adds its amount to the sum over the days exactly when its day is among them. */
  lemma {:induction false} SumOnDaysSnoc(rows: seq<Row>, r: Row, key: Row -> int, ks: seq<int>, n: Nutrient)
    requires Distinct(ks)
    ensures SumOnDays(rows + [r], key, ks, n)
      == SumOnDays(rows, key, ks, n) + (if key(r) in ks then Amount(r, n) else 0.0)
  {
    if ks != [] {
      var init := ks[..|ks| - 1];
      SumOnDaysSnoc(rows, r, key, init, n);
      assert (rows + [r])[..|rows|] == rows;
      assert key(r) in ks <==> key(r) in init || key(r) == ks[|ks| - 1];
      assert key(r) in init ==> key(r) != ks[|ks| - 1];
    }
  }

  /** Conservation: the days' totals add up to the total over all consumptions. */
  lemma {:induction false} BucketsConserve(rows: seq<Row>, key: Row -> int, n: Nutrient)
    ensures SumEntries(Buckets(rows, key), n) == Total(rows, n)
  {
    SumEntriesFor(rows, key, KeysInOrder(rows, key), n);
    KeysConserve(rows, key, n);
  }

  lemma {:induction false} KeysConserve(rows: seq<Row>, key: Row -> int, n: Nutrient)
    ensures SumOnDays(rows, key, KeysInOrder(rows, key), n) == Total(rows, n)
  {
    if rows != [] {
      var p := rows[..|rows| - 1];
      KeysConserve(p, key, n);
      assert rows == p + [rows[|rows| - 1]];
      KeysConserveSnoc(p, rows[|rows| - 1], key, n);
    }
  }

  /** One more row keeps the sum over the days equal to the total. */
  lemma KeysConserveSnoc(p: seq<Row>, r: Row, key: Row -> int, n: Nutrient)
    requires SumOnDays(p, key, KeysInOrder(p, key), n) == Total(p, n)
    ensures SumOnDays(p + [r], key, KeysInOrder(p + [r], key), n) == Total(p + [r], n)
  {
    var rows := p + [r];
    var ks := KeysInOrder(p, key);
    assert rows[..|rows| - 1] == p;
    assert Total(rows, n) == Total(p, n) + Amount(r, n);
    SumOnDaysSnoc(p, r, key, ks, n);
    if key(r) !in ks {
      assert KeysInOrder(rows, key) == ks + [key(r)];
      NewDayWasEmpty(p, key, key(r), n);
      SumOnDaysExtend(rows, key, ks, key(r), n);
      AmountSnoc(p, r, key, key(r), n);
    }
  }

  /** The amount of a day over rows with one more row at the end. */
  lemma AmountSnoc(p: seq<Row>, r: Row, key: Row -> int, d: int, n: Nutrient)
    ensures AmountOn(p + [r], key, d, n) == AmountOn(p, key, d, n) + (if key(r) == d then Amount(r, n) else 0.0)
  {
    assert (p + [r])[..|p|] == p;
  }

  /** A day not yet among the keys of some rows has nothing on them. */
  lemma NewDayWasEmpty(rows: seq<Row>, key: Row -> int, d: int, n: Nutrient)
    requires d !in KeysInOrder(rows, key)
    ensures AmountOn(rows, key, d, n) == 0.0
  {
    var ks := KeysInOrder(rows, key);
    forall i | 0 <= i < |rows| ensures key(rows[i]) != d {
      assert key(rows[i]) in ks;
    }
    AmountOnOtherDay(rows, key, d, n);
  }

  lemma SumOnDaysExtend(rows: seq<Row>, key: Row -> int, ks: seq<int>, d: int, n: Nutrient)
    ensures SumOnDays(rows, key, ks + [d], n) == SumOnDays(rows, key, ks, n) + AmountOn(rows, key, d, n)
  {
    assert (ks + [d])[..|ks|] == ks;
  }

  // --- ordering by date, as the newer history route does it ---

  function DateOf(e: HistoryEntry): int { e.date }

  lemma {:induction false} SumEntriesAppend(a: seq<HistoryEntry>, b: seq<HistoryEntry>, n: Nutrient)
    ensures SumEntries(a + b, n) == SumEntries(a, n) + SumEntries(b, n)
  {
    if b != [] {
      SumEntriesAppend(a, b[..|b| - 1], n);
      assert (a + b)[..|a + b| - 1] == a + b[..|b| - 1];
    } else {
      assert a + b == a;
    }
  }

  /** An entry put in front adds its own amount. */
  lemma SumEntriesCons(x: HistoryEntry, s: seq<HistoryEntry>, n: Nutrient)
    ensures SumEntries([x] + s, n) == EntryAmount(x, n) + SumEntries(s, n)
  {
    SumEntriesAppend([x], s, n);
    assert [x][..0] == [];
  }

  lemma {:induction false} SumEntriesInsert(x: HistoryEntry, s: seq<HistoryEntry>, n: Nutrient)
    requires SortedBy(s, DateOf)
    ensures SumEntries(Insert(x, s, DateOf), n) == EntryAmount(x, n) + SumEntries(s, n)
  {
    if s == [] || DateOf(x) <= DateOf(s[0]) {
      assert Insert(x, s, DateOf) == [x] + s;
      SumEntriesCons(x, s, n);
    } else {
      var t := Insert(x, s[1..], DateOf);
      assert Insert(x, s, DateOf) == [s[0]] + t;
      SumEntriesInsert(x, s[1..], n);
      SumEntriesCons(s[0], t, n);
      SumEntriesCons(s[0], s[1..], n);
      assert [s[0]] + s[1..] == s;
    }
  }

  /** Sorting by date loses and adds nothing to the totals. */
  lemma {:induction false} SumEntriesSorted(s: seq<HistoryEntry>, n: Nutrient)
    ensures SumEntries(SortBy(s, DateOf), n) == SumEntries(s, n)
  {
    if s != [] {
      var t := SortBy(s[1..], DateOf);
      assert SortBy(s, DateOf) == Insert(s[0], t, DateOf);
      SumEntriesSorted(s[1..], n);
      SumEntriesInsert(s[0], t, n);
      SumEntriesCons(s[0], s[1..], n);
      assert [s[0]] + s[1..] == s;
    }
  }
}
