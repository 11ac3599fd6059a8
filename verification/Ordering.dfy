/** Ordering of names as Go's string `<` decides it, and what sorting a listing
    by name leaves over.  Protobuf strings are valid UTF-8, whose byte order is
    the order of code points, so a name is a sequence of characters. */
module Ordering {

  predicate Less(a: string, b: string) {
    if |b| == 0 then false
    else if |a| == 0 then true
    else a[0] < b[0] || (a[0] == b[0] && Less(a[1..], b[1..]))
  }

  /** The strings agree up to `i`, and there `a` is at its end or smaller. */
  predicate ComesFirst(a: string, b: string, i: nat) {
    i <= |a| && i < |b| && a[..i] == b[..i] && (i == |a| || a[i] < b[i])
  }

  /** The order is the one by characters: a proper prefix comes first, else the
      first difference decides. */
  lemma {:induction false} LessByFirstDifference(a: string, b: string)
    ensures Less(a, b) <==> exists i: nat :: ComesFirst(a, b, i)
  {
    if |b| == 0 {
    } else if |a| == 0 || a[0] < b[0] {
      assert ComesFirst(a, b, 0);
    } else if a[0] == b[0] {
      LessByFirstDifference(a[1..], b[1..]);
      assert a == [a[0]] + a[1..] && b == [b[0]] + b[1..];
      if i: nat :| ComesFirst(a[1..], b[1..], i) {
        assert a[..i + 1] == [a[0]] + a[1..][..i] && b[..i + 1] == [b[0]] + b[1..][..i];
        assert ComesFirst(a, b, i + 1);
      }
      if i: nat :| ComesFirst(a, b, i) {
        assert i > 0;
        assert a[1..][..i - 1] == a[..i][1..] && b[1..][..i - 1] == b[..i][1..];
        assert ComesFirst(a[1..], b[1..], i - 1);
      }
    } else {
      forall i: nat ensures !ComesFirst(a, b, i) {
        assert i > 0 && i <= |a| && i < |b| ==> a[..i][0] == a[0] && b[..i][0] == b[0];
      }
    }
  }

  lemma {:induction false} LessIsStrictTotal(a: string, b: string)
    ensures Less(a, b) ==> !Less(b, a)
    ensures !Less(a, b) && !Less(b, a) <==> a == b
  {
    if |a| == 0 || |b| == 0 || a[0] != b[0] {
    } else {
      LessIsStrictTotal(a[1..], b[1..]);
      assert a == [a[0]] + a[1..] && b == [b[0]] + b[1..];
    }
  }

  lemma {:induction false} LessIsTransitive(a: string, b: string, c: string)
    requires Less(a, b) && Less(b, c)
    ensures Less(a, c)
  {
    if |a| == 0 || !(a[0] == b[0] == c[0]) {
    } else {
      LessIsTransitive(a[1..], b[1..], c[1..]);
    }
  }

  /** Strictly ascending: sorted, and no name twice. */
  predicate Ascending(names: seq<string>) {
    forall i, j :: 0 <= i < j < |names| ==> Less(names[i], names[j])
  }

  /** What sort.Slice promises about its result when it compares by `key`. */
  predicate SortedBy<T>(items: seq<T>, key: T -> string) {
    forall i, j :: 0 <= i < j < |items| ==> !Less(key(items[j]), key(items[i]))
  }

  predicate Distinct<T(==)>(items: seq<T>) {
    forall i, j :: 0 <= i < j < |items| ==> items[i] != items[j]
  }

  function Elements(names: seq<string>): set<string> {
    set name | name in names
  }

  function KeysOf<T>(items: seq<T>, key: T -> string): (keys: seq<string>) {
    seq(|items|, i requires 0 <= i < |items| => key(items[i]))
  }

  /** A set of names has at most one strictly ascending enumeration. */
  lemma {:induction false} AscendingIsUnique(a: seq<string>, b: seq<string>)
    requires Ascending(a) && Ascending(b) && Elements(a) == Elements(b)
    ensures a == b
  {
    NoElementsMeansEmpty(a);
    NoElementsMeansEmpty(b);
    if |a| == 0 || |b| == 0 {
    } else {
      assert a[0] in Elements(b) && b[0] in Elements(a);
      LessIsStrictTotal(a[0], b[0]);
      FirstIsOnlyFirst(a);
      FirstIsOnlyFirst(b);
      assert a[0] == b[0];
      assert Elements(a[1..]) == Elements(a) - {a[0]};
      assert Elements(b[1..]) == Elements(b) - {b[0]};
      AscendingIsUnique(a[1..], b[1..]);
      assert a == [a[0]] + a[1..] && b == [b[0]] + b[1..];
    }
  }

  lemma NoElementsMeansEmpty(names: seq<string>)
    ensures Elements(names) == {} <==> |names| == 0
  {
    assert |names| > 0 ==> names[0] in Elements(names);
  }

  lemma FirstIsOnlyFirst(a: seq<string>)
    requires Ascending(a) && |a| > 0
    ensures forall x :: x in a[1..] ==> Less(a[0], x) && x != a[0]
    ensures forall x :: x in a && x != a[0] ==> x in a[1..]
  {
    assert a == [a[0]] + a[1..];
    forall x | x in a[1..] ensures Less(a[0], x) && x != a[0] {
      LessIsStrictTotal(a[0], x);
    }
  }

  lemma LeastExists(names: set<string>) returns (least: string)
    requires names != {}
    ensures least in names && forall x :: x in names && x != least ==> Less(least, x)
  {
    var some :| some in names;
    if names == {some} {
      least := some;
    } else {
      var rest := names - {some};
      var low := LeastExists(rest);
      LessIsStrictTotal(low, some);
      least := if Less(some, low) then some else low;
      forall x | x in names && x != least ensures Less(least, x) {
        if x in rest && x != low && least == some {
          LessIsTransitive(some, low, x);
        }
      }
    }
  }

  /** The one strictly ascending enumeration of a set of names. */
  ghost function Enumerate(names: set<string>): (listed: seq<string>)
    ensures Ascending(listed) && Elements(listed) == names
  {
    if names == {} then []
    else
      assert exists least :: least in names && forall x :: x in names && x != least ==> Less(least, x) by {
        var least := LeastExists(names);
      }
      var least :| least in names && forall x :: x in names && x != least ==> Less(least, x);
      var rest := Enumerate(names - {least});
      PrependLeast(least, rest);
      [least] + rest
  }

  lemma PrependLeast(least: string, rest: seq<string>)
    requires Ascending(rest) && forall x :: x in Elements(rest) ==> Less(least, x)
    ensures Ascending([least] + rest) && Elements([least] + rest) == {least} + Elements(rest)
  {
    assert forall i :: 0 <= i < |rest| ==> rest[i] in Elements(rest);
  }

  /** Whatever order a map was walked in and however unstable the sort, sorting
      the entries of a map by their key lists them in the canonical order. */
  lemma SortedListingIsCanonical<T>(walked: seq<T>, sorted: seq<T>, key: T -> string)
    requires Distinct(KeysOf(walked, key))
    requires multiset(sorted) == multiset(walked)
    requires SortedBy(sorted, key)
    ensures KeysOf(sorted, key) == Enumerate(Elements(KeysOf(walked, key)))
  {
    var before, after := KeysOf(walked, key), KeysOf(sorted, key);
    KeysKeepMultiset(walked, sorted, key);
    DistinctHasNoRepeats(before);
    forall i, j | 0 <= i < j < |after| ensures Less(after[i], after[j]) {
      RepeatsShowInMultiset(after, i, j);
      LessIsStrictTotal(after[i], after[j]);
      assert !Less(key(sorted[j]), key(sorted[i]));
    }
    SameMultisetSameElements(before, after);
    AscendingIsUnique(after, Enumerate(Elements(before)));
  }

  lemma SameMultisetSameElements(a: seq<string>, b: seq<string>)
    requires multiset(a) == multiset(b)
    ensures Elements(a) == Elements(b)
  {
    forall x ensures x in a <==> x in b {
      assert x in a <==> x in multiset(a);
      assert x in b <==> x in multiset(b);
    }
  }

  lemma KeysConcat<T>(a: seq<T>, b: seq<T>, key: T -> string)
    ensures KeysOf(a + b, key) == KeysOf(a, key) + KeysOf(b, key)
  {
  }

  lemma {:induction false} KeysKeepMultiset<T>(a: seq<T>, b: seq<T>, key: T -> string)
    requires multiset(a) == multiset(b)
    ensures multiset(KeysOf(a, key)) == multiset(KeysOf(b, key))
    decreases |a|
  {
    if |a| == 0 {
      assert |b| == |multiset(b)| == 0;
    } else {
      assert a == [a[0]] + a[1..];
      assert a[0] in multiset(b);
      var k :| 0 <= k < |b| && b[k] == a[0];
      var left, right := b[..k], b[k + 1..];
      assert b == left + ([a[0]] + right);
      RestsAgree(a, left, right);
      KeysKeepMultiset(a[1..], left + right, key);
      KeysMoveToFront([], a[0], a[1..], key);
      KeysMoveToFront(left, a[0], right, key);
      assert [] + a[1..] == a[1..] && [] + ([a[0]] + a[1..]) == a;
    }
  }

  lemma RestsAgree<T>(a: seq<T>, left: seq<T>, right: seq<T>)
    requires |a| > 0 && multiset(a) == multiset(left + ([a[0]] + right))
    ensures multiset(a[1..]) == multiset(left + right)
  {
    var x := a[0];
    assert a == [] + ([x] + a[1..]) && [] + a[1..] == a[1..];
    MoveToFront([], x, a[1..]);
    MoveToFront(left, x, right);
    Cancel(x, multiset(a[1..]), multiset(left + right));
  }

  lemma Cancel<T>(x: T, a: multiset<T>, b: multiset<T>)
    requires multiset{x} + a == multiset{x} + b
    ensures a == b
  {
    forall y ensures a[y] == b[y] {
      assert (multiset{x} + a)[y] == (multiset{x} + b)[y];
    }
  }

  lemma KeysMoveToFront<T>(left: seq<T>, x: T, right: seq<T>, key: T -> string)
    ensures multiset(KeysOf(left + ([x] + right), key)) == multiset{key(x)} + multiset(KeysOf(left + right, key))
  {
    KeysConcat(left, right, key);
    KeysConcat([x], right, key);
    KeysConcat(left, [x] + right, key);
    assert KeysOf([x], key) == [key(x)];
    MoveToFront(KeysOf(left, key), key(x), KeysOf(right, key));
  }

  lemma MoveToFront<T>(left: seq<T>, x: T, right: seq<T>)
    ensures multiset(left + ([x] + right)) == multiset{x} + multiset(left + right)
  {
  }

  lemma {:induction false} DistinctHasNoRepeats(names: seq<string>)
    requires Distinct(names)
    ensures forall x :: multiset(names)[x] <= 1
  {
    if |names| == 0 {
    } else {
      DistinctHasNoRepeats(names[1..]);
      assert names == [names[0]] + names[1..];
      assert names[0] !in multiset(names[1..]);
    }
  }

  lemma RepeatsShowInMultiset(names: seq<string>, i: nat, j: nat)
    requires i < j < |names|
    ensures names[i] == names[j] ==> multiset(names)[names[i]] >= 2
  {
    assert names == names[..j] + names[j..];
    assert names[i] in names[..j];
    assert names[j] == names[j..][0];
  }

  function InsertBy<T>(sorted: seq<T>, x: T, key: T -> string): (longer: seq<T>)
    ensures multiset(longer) == multiset(sorted) + multiset{x}
  {
    if |sorted| == 0 || Less(key(x), key(sorted[0])) then [x] + sorted
    else
      assert sorted == [sorted[0]] + sorted[1..];
      [sorted[0]] + InsertBy(sorted[1..], x, key)
  }

  function SortBy<T>(items: seq<T>, key: T -> string): (sorted: seq<T>)
    ensures multiset(sorted) == multiset(items)
  {
    if |items| == 0 then []
    else
      assert items == [items[0]] + items[1..];
      InsertBy(SortBy(items[1..], key), items[0], key)
  }

  lemma {:induction false} InsertKeepsSorted<T>(sorted: seq<T>, x: T, key: T -> string)
    requires SortedBy(sorted, key)
    ensures SortedBy(InsertBy(sorted, x, key), key)
  {
    var longer := InsertBy(sorted, x, key);
    if |sorted| == 0 {
    } else if !Less(key(x), key(sorted[0])) {
      var tail := InsertBy(sorted[1..], x, key);
      InsertKeepsSorted(sorted[1..], x, key);
      forall j | 0 <= j < |tail| ensures !Less(key(tail[j]), key(sorted[0])) {
        assert tail[j] in multiset(tail);
        assert tail[j] == x || tail[j] in sorted[1..];
      }
    } else {
      LessIsStrictTotal(key(x), key(sorted[0]));
      forall j | 0 <= j < |sorted| ensures !Less(key(sorted[j]), key(x)) {
        if Less(key(sorted[j]), key(x)) {
          LessIsTransitive(key(sorted[j]), key(x), key(sorted[0]));
        }
      }
    }
  }

  lemma {:induction false} SortBySorts<T>(items: seq<T>, key: T -> string)
    ensures SortedBy(SortBy(items, key), key)
  {
    if |items| == 0 {
    } else {
      SortBySorts(items[1..], key);
      InsertKeepsSorted(SortBy(items[1..], key), items[0], key);
    }
  }

  /** Stands for sort.Slice.  Callers rely on nothing but its contract, which
      any comparison sort meets, stable or not. */
  method SortSlice<T>(items: seq<T>, key: T -> string) returns (sorted: seq<T>)
    ensures multiset(sorted) == multiset(items)
    ensures SortedBy(sorted, key)
  {
    SortBySorts(items, key);
    sorted := SortBy(items, key);
  }
}
