/** The order-book merge engine: a side is a sequence of price levels kept strictly
    sorted by price (bids descending, asks ascending) and edited in place, one delta at
    a time, by a linear search for the insertion point followed by a removal, a
    replacement or an insertion. */
module OrderBook {
  import opened Common

  /** One `[price, amount]` entry of a side. */
  datatype Level = Level(price: real, amount: real)

  /** Price `a` ranks strictly before price `b`: higher first on bids (descending),
      lower first on asks (ascending). */
  predicate Ahead(a: real, b: real, descending: bool) {
    if descending then a > b else a < b
  }

  /** The three-way comparison of `searchIndexToInsertOrUpdate`, with the direction
      flipped for a descending side. */
  function Compare(a: real, b: real, descending: bool): (c: int)
    ensures c >= 0 <==> !Ahead(a, b, descending)
    ensures c == 0 <==> a == b
  {
    var direction := if descending then -1 else 1;
    if a < b then -direction else if a > b then direction else 0
  }

  /** Every level ranks strictly before every later one: sorted, no duplicate price. */
  predicate Sorted(s: seq<Level>, descending: bool) {
    forall i, j :: 0 <= i < j < |s| ==> Ahead(s[i].price, s[j].price, descending)
  }

  predicate NoZero(s: seq<Level>) {
    forall i :: 0 <= i < |s| ==> s[i].amount != 0.0
  }

  /** The side's invariant. */
  predicate WellFormed(s: seq<Level>, descending: bool) {
    Sorted(s, descending) && NoZero(s)
  }

  predicate HasPrice(s: seq<Level>, price: real) {
    exists i :: 0 <= i < |s| && s[i].price == price
  }

  /** The first position whose price does not rank before `value`, or `|s|`. */
  function SearchIndex(value: real, s: seq<Level>, descending: bool): (i: nat)
    ensures i <= |s|
    ensures forall j :: 0 <= j < i ==> Ahead(s[j].price, value, descending)
    ensures i < |s| ==> !Ahead(s[i].price, value, descending)
  {
    if |s| == 0 || !Ahead(s[0].price, value, descending) then 0
    else 1 + SearchIndex(value, s[1..], descending)
  }

  /** `searchIndexToInsertOrUpdate` with `key` 0 (the price): a linear scan that stops
      at the first level whose comparison with `value` is not negative. */
  method SearchIndexToInsertOrUpdate(value: real, orderedArray: seq<Level>, descending: bool)
    returns (index: nat)
    ensures index <= |orderedArray|
    ensures forall j :: 0 <= j < index ==> Ahead(orderedArray[j].price, value, descending)
    ensures index < |orderedArray| ==> !Ahead(orderedArray[index].price, value, descending)
    ensures index == SearchIndex(value, orderedArray, descending)
  {
    var i := 0;
    while i < |orderedArray|
      invariant i <= |orderedArray|
      invariant forall j :: 0 <= j < i ==> Ahead(orderedArray[j].price, value, descending)
    {
      if Compare(orderedArray[i].price, value, descending) >= 0 {
        SearchIndexUnique(value, orderedArray, descending, i);
        return i;
      }
      i := i + 1;
    }
    SearchIndexUnique(value, orderedArray, descending, |orderedArray|);
    return |orderedArray|;
  }

  /** The search index is determined by its two defining properties. */
  lemma SearchIndexUnique(value: real, s: seq<Level>, descending: bool, k: nat)
    requires k <= |s|
    requires forall j :: 0 <= j < k ==> Ahead(s[j].price, value, descending)
    requires k < |s| ==> !Ahead(s[k].price, value, descending)
    ensures SearchIndex(value, s, descending) == k
  {
  }

  /** On a sorted side the search index of a price that is present is its position. */
  lemma SearchIndexAtPrice(s: seq<Level>, descending: bool, k: nat)
    requires Sorted(s, descending) && k < |s|
    ensures SearchIndex(s[k].price, s, descending) == k
  {
    SearchIndexUnique(s[k].price, s, descending, k);
  }

  // ---------------------------------------------------------------------------
  // The two merge rules as functions of the side before the call
  // ---------------------------------------------------------------------------

  /** The side after `updateBidAsk` applies one absolute level. */
  function ReplaceMerge(s: seq<Level>, bidAsk: Level, descending: bool): seq<Level> {
    var index := SearchIndex(bidAsk.price, s, descending);
    if index < |s| && s[index].price == bidAsk.price then
      if bidAsk.amount == 0.0 then s[..index] + s[index + 1..]
      else s[index := bidAsk]
    else if bidAsk.amount != 0.0 then s[..index] + [bidAsk] + s[index..]
    else s
  }

  /** The side after `updateBidAskDiff` applies one signed increment. */
  function DiffMerge(s: seq<Level>, bidAsk: Level, descending: bool): seq<Level> {
    var index := SearchIndex(bidAsk.price, s, descending);
    if index < |s| && s[index].price == bidAsk.price then
      var nextValue := s[index].amount + bidAsk.amount;
      if nextValue == 0.0 then s[..index] + s[index + 1..]
      else s[index := s[index].(amount := nextValue)]
    else if bidAsk.amount != 0.0 then s[..index] + [bidAsk] + s[index..]
    else s
  }

  /** A batch of absolute levels applied in order. */
  function ReplaceMergeAll(s: seq<Level>, deltas: seq<Level>, descending: bool): seq<Level> {
    if |deltas| == 0 then s
    else ReplaceMerge(ReplaceMergeAll(s, deltas[..|deltas| - 1], descending), deltas[|deltas| - 1], descending)
  }

  // ---------------------------------------------------------------------------
  // The side as a price -> amount table: an independent reading of the merge
  // ---------------------------------------------------------------------------

  /** The amount quoted at each price (the first level wins, which on a sorted side is
      the only one). */
  function Book(s: seq<Level>): map<real, real> {
    if |s| == 0 then map[] else Book(s[1..])[s[0].price := s[0].amount]
  }

  lemma {:induction false} BookHas(s: seq<Level>, p: real)
    ensures p in Book(s) <==> HasPrice(s, p)
  {
    if |s| > 0 {
      BookHas(s[1..], p);
      if HasPrice(s, p) && s[0].price != p {
        var i :| 0 <= i < |s| && s[i].price == p;
        assert s[1..][i - 1].price == p;
      }
      if HasPrice(s[1..], p) {
        var i :| 0 <= i < |s[1..]| && s[1..][i].price == p;
        assert s[i + 1].price == p;
      }
    }
  }

  lemma {:induction false} BookConcat(a: seq<Level>, b: seq<Level>)
    ensures Book(a + b) == Book(b) + Book(a)
  {
    if |a| > 0 {
      assert (a + b)[1..] == a[1..] + b;
      BookConcat(a[1..], b);
    } else {
      assert a + b == b;
    }
  }

  lemma {:induction false} BookAt(s: seq<Level>, descending: bool, k: nat)
    requires Sorted(s, descending) && k < |s|
    ensures s[k].price in Book(s) && Book(s)[s[k].price] == s[k].amount
  {
    if k > 0 {
      BookAt(s[1..], descending, k - 1);
      assert s[1..][k - 1] == s[k];
    }
  }

  /** A sorted side is not split by the price at position `k`: it is absent before and
      after that position. */
  lemma SplitAt(s: seq<Level>, descending: bool, k: nat)
    requires Sorted(s, descending) && k < |s|
    ensures s == s[..k] + [s[k]] + s[k + 1..]
    ensures !HasPrice(s[..k], s[k].price) && !HasPrice(s[k + 1..], s[k].price)
  {
    assert s == s[..k] + [s[k]] + s[k + 1..];
    assert forall i :: 0 <= i < k ==> s[..k][i] == s[i];
    assert forall i :: k + 1 <= i < |s| ==> s[k + 1..][i - k - 1] == s[i];
  }

  /** The table of `a + [l] + b` when `l.price` occurs in neither part. */
  lemma BookAround(a: seq<Level>, l: Level, b: seq<Level>)
    requires !HasPrice(a, l.price)
    ensures Book(a + [l] + b) == (Book(b) + Book(a))[l.price := l.amount]
    ensures Book(a + b) == Book(b) + Book(a)
  {
    BookConcat(a + [l], b);
    BookConcat(a, [l]);
    BookConcat(a, b);
    BookHas(a, l.price);
    assert Book([l]) == map[l.price := l.amount] by {
      assert [l][1..] == [];
    }
  }

  /** The table of a sorted side equals the two parts around `k` plus the level at `k`. */
  lemma BookSplit(s: seq<Level>, descending: bool, k: nat)
    requires Sorted(s, descending) && k < |s|
    ensures Book(s) == (Book(s[k + 1..]) + Book(s[..k]))[s[k].price := s[k].amount]
    ensures s[k].price !in Book(s[k + 1..]) + Book(s[..k])
  {
    SplitAt(s, descending, k);
    BookAround(s[..k], s[k], s[k + 1..]);
    BookHas(s[..k], s[k].price);
    BookHas(s[k + 1..], s[k].price);
  }

  /** Two sorted sides that quote the same table are the same side: the table is a
      complete description of a well-formed side. */
  lemma {:induction false} SortedBookUnique(a: seq<Level>, b: seq<Level>, descending: bool)
    requires Sorted(a, descending) && Sorted(b, descending)
    requires Book(a) == Book(b)
    ensures a == b
  {
    if |a| == 0 || |b| == 0 {
      if |a| > 0 {
        BookAt(a, descending, 0);
      } else if |b| > 0 {
        BookAt(b, descending, 0);
      }
    } else {
      BookAt(a, descending, 0);
      BookAt(b, descending, 0);
      BookHas(b, a[0].price);
      BookHas(a, b[0].price);
      var k :| 0 <= k < |b| && b[k].price == a[0].price;
      var m :| 0 <= m < |a| && a[m].price == b[0].price;
      assert a[0].price == b[0].price;
      SplitAt(a, descending, 0);
      SplitAt(b, descending, 0);
      BookHas(a[1..], a[0].price);
      BookHas(b[1..], b[0].price);
      assert Book(a[1..]) == Book(a) - {a[0].price};
      assert Book(b[1..]) == Book(b) - {b[0].price};
      SortedBookUnique(a[1..], b[1..], descending);
      assert a == [a[0]] + a[1..] && b == [b[0]] + b[1..];
    }
  }

  // ---------------------------------------------------------------------------
  // updateBidAsk: properties
  // ---------------------------------------------------------------------------

  /** A price that is quoted: a zero amount removes exactly its level, any other amount
      replaces exactly its level. */
  lemma ReplaceMergePresent(s: seq<Level>, bidAsk: Level, descending: bool, k: nat)
    requires Sorted(s, descending) && k < |s| && s[k].price == bidAsk.price
    ensures bidAsk.amount == 0.0 ==>
              ReplaceMerge(s, bidAsk, descending) == s[..k] + s[k + 1..]
              && |ReplaceMerge(s, bidAsk, descending)| == |s| - 1
    ensures bidAsk.amount != 0.0 ==>
              ReplaceMerge(s, bidAsk, descending) == s[k := bidAsk]
              && |ReplaceMerge(s, bidAsk, descending)| == |s|
  {
    SearchIndexAtPrice(s, descending, k);
  }

  /** A price that is not quoted: a zero amount changes nothing, any other amount is
      inserted at the position that keeps the side sorted. */
  lemma ReplaceMergeAbsent(s: seq<Level>, bidAsk: Level, descending: bool)
    requires Sorted(s, descending) && !HasPrice(s, bidAsk.price)
    ensures bidAsk.amount == 0.0 ==> ReplaceMerge(s, bidAsk, descending) == s
    ensures bidAsk.amount != 0.0 ==>
              var i := SearchIndex(bidAsk.price, s, descending);
              ReplaceMerge(s, bidAsk, descending) == s[..i] + [bidAsk] + s[i..]
              && |ReplaceMerge(s, bidAsk, descending)| == |s| + 1
              && (forall j :: 0 <= j < i ==> Ahead(s[j].price, bidAsk.price, descending))
              && (forall j :: i <= j < |s| ==> Ahead(bidAsk.price, s[j].price, descending))
  {
    var i := SearchIndex(bidAsk.price, s, descending);
    assert i < |s| ==> s[i].price != bidAsk.price;
  }

  /** Inserting a new price at its search index keeps a sorted side sorted. */
  lemma InsertSorted(s: seq<Level>, l: Level, descending: bool)
    requires Sorted(s, descending) && !HasPrice(s, l.price)
    ensures var i := SearchIndex(l.price, s, descending);
            Sorted(s[..i] + [l] + s[i..], descending)
  {
    var i := SearchIndex(l.price, s, descending);
    var r := s[..i] + [l] + s[i..];
    assert i < |s| ==> s[i].price != l.price;
    assert forall j :: i < j < |r| ==> r[j] == s[j - 1];
    assert forall j :: 0 <= j < i ==> r[j] == s[j];
    assert r[i] == l;
    assert forall j :: i <= j < |s| ==> Ahead(l.price, s[j].price, descending) by {
      if i < |s| {
        assert Ahead(l.price, s[i].price, descending);
      }
    }
    forall a, b | 0 <= a < b < |r|
      ensures Ahead(r[a].price, r[b].price, descending)
    {
      if b < i {
        assert r[a] == s[a] && r[b] == s[b];
      } else if b == i {
        assert r[a] == s[a];
      } else if a < i {
        assert r[a] == s[a] && r[b] == s[b - 1];
      } else if a == i {
        assert r[b] == s[b - 1];
      } else {
        assert r[a] == s[a - 1] && r[b] == s[b - 1];
      }
    }
  }

  lemma RemoveSorted(s: seq<Level>, descending: bool, k: nat)
    requires Sorted(s, descending) && k < |s|
    ensures Sorted(s[..k] + s[k + 1..], descending)
  {
    var r := s[..k] + s[k + 1..];
    assert forall j :: 0 <= j < k ==> r[j] == s[j];
    assert forall j :: k <= j < |r| ==> r[j] == s[j + 1];
  }

  /** `updateBidAsk` keeps a side strictly sorted (no duplicate price) and never
      introduces a zero amount. */
  lemma ReplaceMergeWellFormed(s: seq<Level>, bidAsk: Level, descending: bool)
    ensures Sorted(s, descending) ==> Sorted(ReplaceMerge(s, bidAsk, descending), descending)
    ensures NoZero(s) ==> NoZero(ReplaceMerge(s, bidAsk, descending))
  {
    var i := SearchIndex(bidAsk.price, s, descending);
    var r := ReplaceMerge(s, bidAsk, descending);
    if i < |s| && s[i].price == bidAsk.price {
      if bidAsk.amount == 0.0 {
        if Sorted(s, descending) { RemoveSorted(s, descending, i); }
        assert forall j :: 0 <= j < |r| ==> r[j] == s[if j < i then j else j + 1];
      }
    } else if bidAsk.amount != 0.0 {
      if Sorted(s, descending) {
        assert !HasPrice(s, bidAsk.price);
        InsertSorted(s, bidAsk, descending);
      }
      assert forall j :: 0 <= j < |r| ==> r[j] == if j < i then s[j] else if j == i then bidAsk else s[j - 1];
    }
  }

  /** The table update that an absolute level stands for. */
  function SetLevel(m: map<real, real>, l: Level): map<real, real> {
    if l.amount == 0.0 then m - {l.price} else m[l.price := l.amount]
  }

  /** Removing the level at `k` of a sorted side drops its price from the table. */
  lemma BookRemoveAt(s: seq<Level>, descending: bool, k: nat)
    requires Sorted(s, descending) && k < |s|
    ensures Book(s[..k] + s[k + 1..]) == Book(s) - {s[k].price}
  {
    BookSplit(s, descending, k);
    BookConcat(s[..k], s[k + 1..]);
  }

  /** Replacing the level at `k` by one at the same price sets that price's amount. */
  lemma BookReplaceAt(s: seq<Level>, descending: bool, k: nat, l: Level)
    requires Sorted(s, descending) && k < |s| && l.price == s[k].price
    ensures Book(s[k := l]) == Book(s)[l.price := l.amount]
  {
    BookSplit(s, descending, k);
    SplitAt(s, descending, k);
    BookAround(s[..k], l, s[k + 1..]);
    assert s[k := l] == s[..k] + [l] + s[k + 1..];
  }

  /** Inserting a level at a price the side does not quote adds that price. */
  lemma BookInsertAt(s: seq<Level>, i: nat, l: Level)
    requires i <= |s| && !HasPrice(s, l.price)
    ensures Book(s[..i] + [l] + s[i..]) == Book(s)[l.price := l.amount]
  {
    BookAround(s[..i], l, s[i..]);
    assert s == s[..i] + s[i..];
  }

  /** On a sorted side, `updateBidAsk` is the table update: a zero amount deletes the
      price, any other amount sets it. */
  lemma ReplaceMergeBook(s: seq<Level>, bidAsk: Level, descending: bool)
    requires Sorted(s, descending)
    ensures Book(ReplaceMerge(s, bidAsk, descending)) == SetLevel(Book(s), bidAsk)
  {
    var p := bidAsk.price;
    var i := SearchIndex(p, s, descending);
    if i < |s| && s[i].price == p {
      if bidAsk.amount == 0.0 {
        BookRemoveAt(s, descending, i);
      } else {
        BookReplaceAt(s, descending, i, bidAsk);
      }
    } else {
      assert !HasPrice(s, p);
      BookHas(s, p);
      if bidAsk.amount != 0.0 {
        BookInsertAt(s, i, bidAsk);
      }
    }
  }

  /** The sortedness and table facts of `updateBidAsk` in one statement. */
  lemma ReplaceMergeSorted(s: seq<Level>, bidAsk: Level, descending: bool)
    requires Sorted(s, descending)
    ensures Sorted(ReplaceMerge(s, bidAsk, descending), descending)
    ensures Book(ReplaceMerge(s, bidAsk, descending)) == SetLevel(Book(s), bidAsk)
  {
    ReplaceMergeWellFormed(s, bidAsk, descending);
    ReplaceMergeBook(s, bidAsk, descending);
  }

  /** Applying the same level twice is the same as applying it once. */
  lemma ReplaceMergeIdempotent(s: seq<Level>, bidAsk: Level, descending: bool)
    requires Sorted(s, descending)
    ensures ReplaceMerge(ReplaceMerge(s, bidAsk, descending), bidAsk, descending)
            == ReplaceMerge(s, bidAsk, descending)
  {
    var once := ReplaceMerge(s, bidAsk, descending);
    ReplaceMergeSorted(s, bidAsk, descending);
    ReplaceMergeSorted(once, bidAsk, descending);
    assert SetLevel(SetLevel(Book(s), bidAsk), bidAsk) == SetLevel(Book(s), bidAsk);
    SortedBookUnique(ReplaceMerge(once, bidAsk, descending), once, descending);
  }

  lemma SetLevelCommute(m: map<real, real>, x: Level, y: Level)
    requires x.price != y.price
    ensures SetLevel(SetLevel(m, x), y) == SetLevel(SetLevel(m, y), x)
  {
  }

  /** Levels at two different prices can be applied in either order. */
  lemma ReplaceMergeCommute(s: seq<Level>, x: Level, y: Level, descending: bool)
    requires Sorted(s, descending) && x.price != y.price
    ensures ReplaceMerge(ReplaceMerge(s, x, descending), y, descending)
            == ReplaceMerge(ReplaceMerge(s, y, descending), x, descending)
  {
    var sx := ReplaceMerge(s, x, descending);
    var sy := ReplaceMerge(s, y, descending);
    ReplaceMergeSorted(s, x, descending);
    ReplaceMergeSorted(s, y, descending);
    var a := ReplaceMerge(sx, y, descending);
    var b := ReplaceMerge(sy, x, descending);
    ReplaceMergeSorted(sx, y, descending);
    ReplaceMergeSorted(sy, x, descending);
    SetLevelCommute(Book(s), x, y);
    SortedBookUnique(a, b, descending);
  }

  /** Whatever batch of levels is applied, in whatever order, a well-formed side stays
      well-formed. */
  lemma {:induction false} ReplaceMergeAllWellFormed(s: seq<Level>, deltas: seq<Level>, descending: bool)
    requires WellFormed(s, descending)
    ensures WellFormed(ReplaceMergeAll(s, deltas, descending), descending)
  {
    if |deltas| > 0 {
      ReplaceMergeAllWellFormed(s, deltas[..|deltas| - 1], descending);
      ReplaceMergeWellFormed(ReplaceMergeAll(s, deltas[..|deltas| - 1], descending), deltas[|deltas| - 1], descending);
    }
  }

  // ---------------------------------------------------------------------------
  // updateBidAskDiff: properties
  // ---------------------------------------------------------------------------

  /** A quoted price: its amount becomes old + delta, and the level is removed exactly
      when that sum is zero; nothing else changes. */
  lemma DiffMergePresent(s: seq<Level>, bidAsk: Level, descending: bool, k: nat)
    requires Sorted(s, descending) && k < |s| && s[k].price == bidAsk.price
    ensures s[k].amount + bidAsk.amount == 0.0 ==>
              DiffMerge(s, bidAsk, descending) == s[..k] + s[k + 1..]
    ensures s[k].amount + bidAsk.amount != 0.0 ==>
              DiffMerge(s, bidAsk, descending) == s[k := Level(s[k].price, s[k].amount + bidAsk.amount)]
  {
    SearchIndexAtPrice(s, descending, k);
  }

  /** A price that is not quoted: a zero delta changes nothing, any other delta is
      inserted, with the delta itself as the amount, where it keeps the side sorted. */
  lemma DiffMergeAbsent(s: seq<Level>, bidAsk: Level, descending: bool)
    requires !HasPrice(s, bidAsk.price)
    ensures DiffMerge(s, bidAsk, descending) == ReplaceMerge(s, bidAsk, descending)
  {
    var i := SearchIndex(bidAsk.price, s, descending);
    assert i < |s| ==> s[i].price != bidAsk.price;
  }

  /** `updateBidAskDiff` keeps a side strictly sorted and never leaves a zero amount. */
  lemma DiffMergeWellFormed(s: seq<Level>, bidAsk: Level, descending: bool)
    ensures Sorted(s, descending) ==> Sorted(DiffMerge(s, bidAsk, descending), descending)
    ensures NoZero(s) ==> NoZero(DiffMerge(s, bidAsk, descending))
  {
    var i := SearchIndex(bidAsk.price, s, descending);
    var r := DiffMerge(s, bidAsk, descending);
    if i < |s| && s[i].price == bidAsk.price {
      if s[i].amount + bidAsk.amount == 0.0 {
        if Sorted(s, descending) { RemoveSorted(s, descending, i); }
        assert forall j :: 0 <= j < |r| ==> r[j] == s[if j < i then j else j + 1];
      }
    } else if bidAsk.amount != 0.0 {
      if Sorted(s, descending) {
        assert !HasPrice(s, bidAsk.price);
        InsertSorted(s, bidAsk, descending);
      }
      assert forall j :: 0 <= j < |r| ==> r[j] == if j < i then s[j] else if j == i then bidAsk else s[j - 1];
    }
  }

  /** On a sorted side, `updateBidAskDiff` adds the delta to the table entry, dropping
      the price when the sum is zero and creating it when it was not quoted. */
  lemma DiffMergeBook(s: seq<Level>, bidAsk: Level, descending: bool)
    requires Sorted(s, descending)
    ensures var m := Book(s);
            var p := bidAsk.price;
            Book(DiffMerge(s, bidAsk, descending)) ==
              if p in m then
                (if m[p] + bidAsk.amount == 0.0 then m - {p} else m[p := m[p] + bidAsk.amount])
              else if bidAsk.amount != 0.0 then m[p := bidAsk.amount]
              else m
  {
    var p := bidAsk.price;
    var i := SearchIndex(p, s, descending);
    if i < |s| && s[i].price == p {
      DiffMergeBookQuoted(s, bidAsk, descending, i);
    } else {
      DiffMergeBookUnquoted(s, bidAsk, descending, i);
    }
  }

  lemma DiffMergeBookQuoted(s: seq<Level>, bidAsk: Level, descending: bool, i: nat)
    requires Sorted(s, descending) && i == SearchIndex(bidAsk.price, s, descending)
    requires i < |s| && s[i].price == bidAsk.price
    ensures var m := Book(s);
            var p := bidAsk.price;
            p in m && Book(DiffMerge(s, bidAsk, descending)) ==
              if m[p] + bidAsk.amount == 0.0 then m - {p} else m[p := m[p] + bidAsk.amount]
  {
    var p := bidAsk.price;
    BookAt(s, descending, i);
    var sum := Level(p, s[i].amount + bidAsk.amount);
    ReplaceMergePresent(s, sum, descending, i);
    ReplaceMergeBook(s, sum, descending);
  }

  lemma DiffMergeBookUnquoted(s: seq<Level>, bidAsk: Level, descending: bool, i: nat)
    requires Sorted(s, descending) && i == SearchIndex(bidAsk.price, s, descending)
    requires !(i < |s| && s[i].price == bidAsk.price)
    ensures var m := Book(s);
            var p := bidAsk.price;
            p !in m && Book(DiffMerge(s, bidAsk, descending)) ==
              if bidAsk.amount != 0.0 then m[p := bidAsk.amount] else m
  {
    var p := bidAsk.price;
    assert !HasPrice(s, p);
    BookHas(s, p);
    DiffMergeAbsent(s, bidAsk, descending);
    ReplaceMergeBook(s, bidAsk, descending);
  }

  // ---------------------------------------------------------------------------
  // The in-place list of levels
  // ---------------------------------------------------------------------------

  /** One side of a book: the Python list that the merge edits in place. */
  class PriceLevels {
    var levels: seq<Level>

    constructor (levels: seq<Level>)
      ensures this.levels == levels
    {
      this.levels := levels;
    }

    /** `updateBidAsk`: insert, replace or delete the level at `bidAsk`'s price. */
    method UpdateBidAsk(bidAsk: Level, bids: bool)
      modifies this
      ensures levels == ReplaceMerge(old(levels), bidAsk, bids)
    {
      var index := SearchIndexToInsertOrUpdate(bidAsk.price, levels, bids);
      if index < |levels| && levels[index].price == bidAsk.price {
        if bidAsk.amount == 0.0 {
          levels := levels[..index] + levels[index + 1..];
        } else {
          levels := levels[index := bidAsk];
        }
      } else if bidAsk.amount != 0.0 {
        levels := levels[..index] + [bidAsk] + levels[index..];
      }
    }

    /** `updateBidAskDiff`: add `bidAsk`'s amount to the level at its price. */
    method UpdateBidAskDiff(bidAsk: Level, bids: bool)
      modifies this
      ensures levels == DiffMerge(old(levels), bidAsk, bids)
    {
      var index := SearchIndexToInsertOrUpdate(bidAsk.price, levels, bids);
      if index < |levels| && levels[index].price == bidAsk.price {
        var nextValue := levels[index].amount + bidAsk.amount;
        if nextValue == 0.0 {
          levels := levels[..index] + levels[index + 1..];
        } else {
          levels := levels[index := levels[index].(amount := nextValue)];
        }
      } else if bidAsk.amount != 0.0 {
        levels := levels[..index] + [bidAsk] + levels[index..];
      }
    }

    /** The loop of `mergeOrderBookDelta` over one side's parsed levels. */
    method UpdateAll(deltas: seq<Level>, bids: bool)
      modifies this
      ensures levels == ReplaceMergeAll(old(levels), deltas, bids)
    {
      var k := 0;
      while k < |deltas|
        invariant k <= |deltas|
        invariant levels == ReplaceMergeAll(old(levels), deltas[..k], bids)
      {
        assert deltas[..k + 1][..k] == deltas[..k];
        UpdateBidAsk(deltas[k], bids);
        k := k + 1;
      }
      assert deltas[..k] == deltas;
    }
  }

  // ---------------------------------------------------------------------------
  // Parsing the wire shapes of a delta message
  // ---------------------------------------------------------------------------

  /** The foreign `parse_bid_ask(bidask, price_key, amount_key)`, which may raise. */
  type BidAskParser = (Json, Key, Key) -> Result<Level>

  /** Python's `key == v` between a key and a decoded value: an int equals a number of
      the same value and the bool it stands for (`0 == False`, `1 == True`); a string
      equals the same string. */
  predicate KeyEquals(key: Key, v: Json) {
    match key
    case IntKey(n) => (v.JNum? && v.n == n as real) || (v.JBool? && n == (if v.b then 1 else 0))
    case StrKey(name) => v.JStr? && v.s == name
  }

  predicate StartsAt(t: string, s: string, i: nat) {
    i + |t| <= |s| && s[i..i + |t|] == t
  }

  /** Python's `t in s` on strings. */
  predicate IsSubstring(t: string, s: string) {
    exists i: nat :: i <= |s| && StartsAt(t, s, i)
  }

  /** Python's `key in entry`: a key test on a dict, an element test on a list, a
      substring test on a string; a TypeError for anything else, and for an int
      tested against a string. */
  function Contains(key: Key, entry: Json): (r: Result<bool>)
    ensures r.Err? <==> !(entry.JDict? || entry.JList? || (entry.JStr? && key.StrKey?))
    ensures r.Err? ==> r.error.TypeError?
    ensures entry.JDict? ==> r == Ok(key in entry.fields)
    ensures entry.JList? ==> (r == Ok(true) <==> exists j :: 0 <= j < |entry.items| && KeyEquals(key, entry.items[j]))
    ensures entry.JStr? && key.StrKey? ==> r == Ok(IsSubstring(key.name, entry.s))
  {
    match entry
    case JDict(fields) => Ok(key in fields)
    case JList(items) => Ok(exists j :: 0 <= j < |items| && KeyEquals(key, items[j]))
    case JStr(text) =>
      if key.StrKey? then Ok(IsSubstring(key.name, text)) else Err(TypeError("'in <string>' requires string as left operand"))
    case _ => Err(TypeError("argument is not iterable"))
  }

  /** `(price_key in bidask) and (amount_key in bidask)`, with Python's short circuit:
      the amount key is tested only when the price key was found. */
  function Keyed(entry: Json, priceKey: Key, amountKey: Key): Result<bool> {
    match Contains(priceKey, entry)
    case Err(e) => Err(e)
    case Ok(found) => if found then Contains(amountKey, entry) else Ok(false)
  }

  /** The entries that pass the key test, in order; the first test that raises
      propagates. */
  function KeyedEntries(entries: seq<Json>, priceKey: Key, amountKey: Key): (r: Result<seq<Json>>)
    ensures r.Ok? <==> forall i :: 0 <= i < |entries| ==> Keyed(entries[i], priceKey, amountKey).Ok?
    ensures r.Ok? ==> |r.value| <= |entries|
    ensures r.Err? ==> exists i :: 0 <= i < |entries|
                        && Keyed(entries[i], priceKey, amountKey) == Err(r.error)
                        && forall j :: 0 <= j < i ==> Keyed(entries[j], priceKey, amountKey).Ok?
  {
    if |entries| == 0 then Ok([])
    else
      match Keyed(entries[0], priceKey, amountKey)
      case Err(e) => Err(e)
      case Ok(keep) =>
        match KeyedEntries(entries[1..], priceKey, amountKey)
        case Err(e) =>
          var i :| 0 <= i < |entries| - 1
                   && Keyed(entries[1..][i], priceKey, amountKey) == Err(e)
                   && forall j :: 0 <= j < i ==> Keyed(entries[1..][j], priceKey, amountKey).Ok?;
          assert forall j :: 0 <= j < i + 1 ==> Keyed(entries[j], priceKey, amountKey).Ok? by {
            assert forall j :: 1 <= j < i + 1 ==> entries[j] == entries[1..][j - 1];
          }
          Err(e)
        case Ok(rest) =>
          assert forall i :: 1 <= i < |entries| ==> entries[i] == entries[1..][i - 1];
          Ok(if keep then [entries[0]] + rest else rest)
  }

  predicate Increasing(idx: seq<nat>) {
    forall a, b :: 0 <= a < b < |idx| ==> idx[a] < idx[b]
  }

  /** `kept` is `entries` read at the increasing positions `idx`, and those positions
      are exactly the ones whose entry carries both keys. */
  predicate KeptAt(entries: seq<Json>, kept: seq<Json>, idx: seq<nat>, priceKey: Key, amountKey: Key) {
    Increasing(idx) && |idx| == |kept|
    && (forall k :: 0 <= k < |idx| ==> idx[k] < |entries| && kept[k] == entries[idx[k]])
    && (forall i :: 0 <= i < |entries| ==> (Keyed(entries[i], priceKey, amountKey) == Ok(true) <==> i in idx))
  }

  function Shift(idx: seq<nat>): (r: seq<nat>)
    ensures |r| == |idx| && forall k :: 0 <= k < |idx| ==> r[k] == idx[k] + 1
  {
    seq(|idx|, k requires 0 <= k < |idx| => idx[k] + 1)
  }

  lemma ShiftMembers(idx: seq<nat>, i: nat)
    ensures i in Shift(idx) <==> i >= 1 && i - 1 in idx
  {
    if i >= 1 && i - 1 in idx {
      var k :| 0 <= k < |idx| && idx[k] == i - 1;
      assert Shift(idx)[k] == i;
    }
  }

  /** The positions of the tail, shifted by one, are the positions past the head. */
  lemma ShiftAll(entries: seq<Json>, idx: seq<nat>)
    requires |entries| > 0
    ensures forall i :: 0 <= i < |entries| ==> (i in Shift(idx) <==> i >= 1 && i - 1 in idx)
    ensures forall i :: 1 <= i < |entries| ==> entries[i] == entries[1..][i - 1]
  {
    forall i | 0 <= i < |entries|
      ensures i in Shift(idx) <==> i >= 1 && i - 1 in idx
    {
      ShiftMembers(idx, i);
    }
  }

  /** A keyed head is kept at position 0, ahead of the tail's kept entries. */
  lemma KeptConsKept(entries: seq<Json>, rest: seq<Json>, idx: seq<nat>, priceKey: Key, amountKey: Key)
    requires |entries| > 0 && KeptAt(entries[1..], rest, idx, priceKey, amountKey)
    requires Keyed(entries[0], priceKey, amountKey) == Ok(true)
    ensures KeptAt(entries, [entries[0]] + rest, [0] + Shift(idx), priceKey, amountKey)
  {
    var idx' := [0] + Shift(idx);
    IncreasingCons(idx);
    PositionsCons(entries, rest, idx);
    forall i | 0 <= i < |entries|
      ensures Keyed(entries[i], priceKey, amountKey) == Ok(true) <==> i in idx'
    {
      if i > 0 {
        assert entries[i] == entries[1..][i - 1];
        ShiftMembers(idx, i);
        assert i in idx' <==> i in Shift(idx);
      }
    }
  }

  lemma IncreasingCons(idx: seq<nat>)
    requires Increasing(idx)
    ensures Increasing([0] + Shift(idx))
  {
    var idx' := [0] + Shift(idx);
    forall k | 1 <= k < |idx'|
      ensures idx'[k] == idx[k - 1] + 1
    {
    }
  }

  lemma PositionsCons(entries: seq<Json>, rest: seq<Json>, idx: seq<nat>)
    requires |entries| > 0 && |idx| == |rest|
    requires forall k :: 0 <= k < |idx| ==> idx[k] < |entries[1..]| && rest[k] == entries[1..][idx[k]]
    ensures var idx', kept := [0] + Shift(idx), [entries[0]] + rest;
      |idx'| == |kept| && forall k :: 0 <= k < |idx'| ==> idx'[k] < |entries| && kept[k] == entries[idx'[k]]
  {
    var idx' := [0] + Shift(idx);
    var kept := [entries[0]] + rest;
    forall k | 0 <= k < |idx'|
      ensures idx'[k] < |entries| && kept[k] == entries[idx'[k]]
    {
      if k > 0 {
        assert idx'[k] == idx[k - 1] + 1 && kept[k] == rest[k - 1];
        assert entries[idx'[k]] == entries[1..][idx[k - 1]];
      }
    }
  }

  /** A head without both keys is skipped: the tail's positions move up by one. */
  lemma KeptConsSkipped(entries: seq<Json>, rest: seq<Json>, idx: seq<nat>, priceKey: Key, amountKey: Key)
    requires |entries| > 0 && KeptAt(entries[1..], rest, idx, priceKey, amountKey)
    requires Keyed(entries[0], priceKey, amountKey) != Ok(true)
    ensures KeptAt(entries, rest, Shift(idx), priceKey, amountKey)
  {
    ShiftAll(entries, idx);
    assert forall k :: 0 <= k < |idx| ==> Shift(idx)[k] < |entries| && rest[k] == entries[Shift(idx)[k]];
  }

  /** The kept entries are the keyed entries in their original order, repeats included. */
  lemma {:induction false} KeyedEntriesInOrder(entries: seq<Json>, priceKey: Key, amountKey: Key)
    requires KeyedEntries(entries, priceKey, amountKey).Ok?
    ensures exists idx :: KeptAt(entries, KeyedEntries(entries, priceKey, amountKey).value, idx, priceKey, amountKey)
  {
    var kept := KeyedEntries(entries, priceKey, amountKey).value;
    if |entries| == 0 {
      assert KeptAt(entries, kept, [], priceKey, amountKey);
    } else {
      KeyedEntriesInOrder(entries[1..], priceKey, amountKey);
      var rest := KeyedEntries(entries[1..], priceKey, amountKey).value;
      var idx :| KeptAt(entries[1..], rest, idx, priceKey, amountKey);
      if Keyed(entries[0], priceKey, amountKey) == Ok(true) {
        KeptConsKept(entries, rest, idx, priceKey, amountKey);
        assert KeptAt(entries, kept, [0] + Shift(idx), priceKey, amountKey);
      } else {
        KeptConsSkipped(entries, rest, idx, priceKey, amountKey);
        assert KeptAt(entries, kept, Shift(idx), priceKey, amountKey);
      }
    }
  }

  /** A side whose first entry is a dict but whose second is a number raises on the key test. */
  lemma ScalarEntryRaises(p: real, a: real)
    ensures KeyedEntries([JDict(map[IntKey(0) := JNum(p), IntKey(1) := JNum(a)]), JNum(5.0)], IntKey(0), IntKey(1)).Err?
    ensures KeyedEntries([JDict(map[IntKey(0) := JNum(p), IntKey(1) := JNum(a)]), JNum(5.0)], IntKey(0), IntKey(1)).error.TypeError?
  {
    var d := JDict(map[IntKey(0) := JNum(p), IntKey(1) := JNum(a)]);
    assert Keyed(d, IntKey(0), IntKey(1)) == Ok(true);
    assert Keyed(JNum(5.0), IntKey(0), IntKey(1)).Err?;
  }

  /** The dict branch of `parse_bids_asks2`: each entry is tested for both keys and,
      when it has them, parsed before the next entry is looked at. When every key test
      succeeds this is parsing the keyed entries in order; when one raises, so does
      the branch (an earlier parse error may come first). */
  function ParseKeyed(entries: seq<Json>, priceKey: Key, amountKey: Key, parseBidAsk: BidAskParser)
    : (r: Result<seq<Level>>)
    ensures KeyedEntries(entries, priceKey, amountKey).Ok? ==>
              r == ParseEach(KeyedEntries(entries, priceKey, amountKey).value, priceKey, amountKey, parseBidAsk)
    ensures KeyedEntries(entries, priceKey, amountKey).Err? ==> r.Err?
  {
    if |entries| == 0 then Ok([])
    else
      var tail := ParseKeyed(entries[1..], priceKey, amountKey, parseBidAsk);
      match Keyed(entries[0], priceKey, amountKey)
      case Err(e) => Err(e)
      case Ok(keep) =>
        if !keep then tail
        else
          match parseBidAsk(entries[0], priceKey, amountKey)
          case Err(e) => Err(e)
          case Ok(level) =>
            match tail
            case Err(e) => Err(e)
            case Ok(rest) =>
              Ok([level] + rest)
  }

  /** Parse each entry in order; the first failure propagates. */
  function ParseEach(entries: seq<Json>, priceKey: Key, amountKey: Key, parseBidAsk: BidAskParser)
    : (r: Result<seq<Level>>)
    ensures r.Ok? <==> forall i :: 0 <= i < |entries| ==> parseBidAsk(entries[i], priceKey, amountKey).Ok?
    ensures r.Ok? ==> |r.value| == |entries|
                      && forall i :: 0 <= i < |entries| ==> r.value[i] == parseBidAsk(entries[i], priceKey, amountKey).value
    ensures r.Err? ==> exists i :: 0 <= i < |entries|
                        && parseBidAsk(entries[i], priceKey, amountKey) == Err(r.error)
                        && forall j :: 0 <= j < i ==> parseBidAsk(entries[j], priceKey, amountKey).Ok?
  {
    if |entries| == 0 then Ok([])
    else
      match parseBidAsk(entries[0], priceKey, amountKey)
      case Err(e) => Err(e)
      case Ok(level) =>
        match ParseEach(entries[1..], priceKey, amountKey, parseBidAsk)
        case Err(e) =>
          assert exists i :: 0 <= i < |entries| - 1
                   && parseBidAsk(entries[1..][i], priceKey, amountKey) == Err(e)
                   && forall j :: 0 <= j < i ==> parseBidAsk(entries[1..][j], priceKey, amountKey).Ok?;
          var i :| 0 <= i < |entries| - 1
                   && parseBidAsk(entries[1..][i], priceKey, amountKey) == Err(e)
                   && forall j :: 0 <= j < i ==> parseBidAsk(entries[1..][j], priceKey, amountKey).Ok?;
          assert forall j :: 0 <= j < i + 1 ==> parseBidAsk(entries[j], priceKey, amountKey).Ok? by {
            assert forall j :: 1 <= j < i + 1 ==> entries[j] == entries[1..][j - 1];
          }
          Err(e)
        case Ok(rest) =>
          assert forall i :: 1 <= i < |entries| ==> entries[i] == entries[1..][i - 1];
          Ok([level] + rest)
  }

  /** `parse_bids_asks2`: the shape of the first entry decides how all are read. A
      list first means every entry is parsed; a dict first means the entries carrying
      both keys are parsed in order, and a key test that raises fails the side. */
  function ParseBidsAsks2(bidasks: seq<Json>, priceKey: Key, amountKey: Key, parseBidAsk: BidAskParser)
    : (r: Result<seq<Level>>)
    ensures |bidasks| == 0 ==> r == Ok([])
    ensures |bidasks| > 0 && bidasks[0].JList? ==> r == ParseEach(bidasks, priceKey, amountKey, parseBidAsk)
    ensures |bidasks| > 0 && bidasks[0].JDict? && KeyedEntries(bidasks, priceKey, amountKey).Ok? ==>
              r == ParseEach(KeyedEntries(bidasks, priceKey, amountKey).value, priceKey, amountKey, parseBidAsk)
    ensures |bidasks| > 0 && bidasks[0].JDict? && KeyedEntries(bidasks, priceKey, amountKey).Err? ==> r.Err?
    ensures |bidasks| > 0 && !bidasks[0].JList? && !bidasks[0].JDict? ==>
              r == Err(ExchangeError(UnrecognizedBidAskFormat))
  {
    if |bidasks| == 0 then Ok([])
    else if bidasks[0].JList? then ParseEach(bidasks, priceKey, amountKey, parseBidAsk)
    else if bidasks[0].JDict? then ParseKeyed(bidasks, priceKey, amountKey, parseBidAsk)
    else Err(ExchangeError(UnrecognizedBidAskFormat))
  }

  /** The levels of one side of a message: a missing or non-list entry counts as empty. */
  function ParsedSide(orderbook: map<string, Json>, key: string, priceKey: Key, amountKey: Key,
                      parseBidAsk: BidAskParser): (r: Result<seq<Level>>)
    ensures (key !in orderbook || !orderbook[key].JList?) ==> r == Ok([])
    ensures key in orderbook && orderbook[key].JList? ==>
              r == ParseBidsAsks2(orderbook[key].items, priceKey, amountKey, parseBidAsk)
  {
    if key in orderbook && orderbook[key].JList? then
      ParseBidsAsks2(orderbook[key].items, priceKey, amountKey, parseBidAsk)
    else Ok([])
  }

  // ---------------------------------------------------------------------------
  // The book
  // ---------------------------------------------------------------------------

  /** A copy of a book's fields, as `_cloneOrderBook` returns it. */
  datatype BookView = BookView(timestamp: Option<int>, datetime: Option<string>, nonce: Option<int>,
                              bids: seq<Level>, asks: seq<Level>)

  /** The length of Python's `s[:limit]` for a list of length `n`. */
  function SliceLength(n: nat, limit: int): (len: nat)
    ensures len <= n
    ensures limit >= 0 ==> len == if limit < n then limit else n
    ensures limit < 0 ==> len == if n + limit > 0 then n + limit else 0
  {
    if limit >= 0 then (if limit < n then limit else n)
    else if n + limit > 0 then n + limit else 0
  }

  /** `_cloneOrderBook`: the same timestamp, datetime and nonce, and copies of the two
      sides, each cut to `limit` levels Python-style when a limit is given. */
  function CloneOrderBook(ob: BookView, limit: Option<int>): (r: BookView)
    ensures r.timestamp == ob.timestamp && r.datetime == ob.datetime && r.nonce == ob.nonce
    ensures limit.None? ==> r.bids == ob.bids && r.asks == ob.asks
    ensures limit.Some? ==> (r.bids == ob.bids[..SliceLength(|ob.bids|, limit.value)]
                             && r.asks == ob.asks[..SliceLength(|ob.asks|, limit.value)])
  {
    match limit
    case None => BookView(ob.timestamp, ob.datetime, ob.nonce, ob.bids, ob.asks)
    case Some(n) =>
      BookView(ob.timestamp, ob.datetime, ob.nonce,
               ob.bids[..SliceLength(|ob.bids|, n)], ob.asks[..SliceLength(|ob.asks|, n)])
  }

  /** A clone of a well-formed book is well-formed and keeps the best levels of each
      side: every level it drops ranks behind every level it keeps. */
  lemma CloneKeepsBest(ob: BookView, limit: Option<int>)
    requires WellFormed(ob.bids, true) && WellFormed(ob.asks, false)
    ensures var r := CloneOrderBook(ob, limit);
            WellFormed(r.bids, true) && WellFormed(r.asks, false)
            && (forall i, j :: 0 <= i < |r.bids| <= j < |ob.bids| ==> ob.bids[i].price > ob.bids[j].price)
            && (forall i, j :: 0 <= i < |r.asks| <= j < |ob.asks| ==> ob.asks[i].price < ob.asks[j].price)
  {
  }

  /** A book: two sides edited in place, and the timestamp, datetime and nonce fields. */
  class OrderBook {
    const bids: PriceLevels
    const asks: PriceLevels
    var timestamp: Option<int>
    var datetime: Option<string>
    var nonce: Option<int>

    ghost predicate Valid()
      reads this
    {
      bids != asks
    }

    constructor (bids: seq<Level>, asks: seq<Level>, nonce: Option<int>)
      ensures Valid() && fresh(this.bids) && fresh(this.asks)
      ensures this.bids.levels == bids && this.asks.levels == asks
      ensures timestamp.None? && datetime.None? && this.nonce == nonce
    {
      this.bids := new PriceLevels(bids);
      this.asks := new PriceLevels(asks);
      timestamp, datetime := None, None;
      this.nonce := nonce;
    }

    function View(): BookView
      reads this, bids, asks
    {
      BookView(timestamp, datetime, nonce, bids.levels, asks.levels)
    }

    /** `mergeOrderBookDelta`: both sides of the message are parsed before the book is
        touched, so a malformed message leaves the book as it was; otherwise every bid
        and then every ask is applied with `updateBidAsk`, the timestamp is taken from
        the argument and the datetime from it (None for None); the nonce is kept. */
    method MergeOrderBookDelta(orderbook: map<string, Json>, timestamp: Option<int>,
                               bidsKey: string, asksKey: string, priceKey: Key, amountKey: Key,
                               parseBidAsk: BidAskParser, iso8601: int -> string)
      returns (r: Outcome)
      requires Valid()
      modifies this, bids, asks
      ensures Valid()
      ensures var pb := ParsedSide(orderbook, bidsKey, priceKey, amountKey, parseBidAsk);
              var pa := ParsedSide(orderbook, asksKey, priceKey, amountKey, parseBidAsk);
              if pb.Err? then r == Fail(pb.error) && View() == old(View())
              else if pa.Err? then r == Fail(pa.error) && View() == old(View())
              else r == Pass
                   && bids.levels == ReplaceMergeAll(old(bids.levels), pb.value, true)
                   && asks.levels == ReplaceMergeAll(old(asks.levels), pa.value, false)
                   && this.timestamp == timestamp
                   && datetime == (if timestamp.Some? then Some(iso8601(timestamp.value)) else None)
                   && nonce == old(nonce)
    {
      var parsedBids := ParsedSide(orderbook, bidsKey, priceKey, amountKey, parseBidAsk);
      if parsedBids.Err? {
        return Fail(parsedBids.error);
      }
      var parsedAsks := ParsedSide(orderbook, asksKey, priceKey, amountKey, parseBidAsk);
      if parsedAsks.Err? {
        return Fail(parsedAsks.error);
      }
      bids.UpdateAll(parsedBids.value, true);
      asks.UpdateAll(parsedAsks.value, false);
      this.timestamp := timestamp;
      datetime := if timestamp.Some? then Some(iso8601(timestamp.value)) else None;
      r := Pass;
    }
  }

  /** A merge of a well-formed book leaves both sides well-formed. */
  lemma MergeKeepsWellFormed(ob: BookView, newBids: seq<Level>, newAsks: seq<Level>)
    requires WellFormed(ob.bids, true) && WellFormed(ob.asks, false)
    ensures WellFormed(ReplaceMergeAll(ob.bids, newBids, true), true)
    ensures WellFormed(ReplaceMergeAll(ob.asks, newAsks, false), false)
  {
    ReplaceMergeAllWellFormed(ob.bids, newBids, true);
    ReplaceMergeAllWellFormed(ob.asks, newAsks, false);
  }
}
