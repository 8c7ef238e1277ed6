/** Sequence and string helpers shared by the chord explorer and the chat endpoint:
    the JavaScript array and string operations the app and the endpoint rely on
    (`new Set`, `indexOf`, `filter`/`find` on optional values, `sort`,
    `startsWith`, `includes`, `join`). */
module Seqs {

  datatype Option<T> = None | Some(value: T)

  predicate NoDup<T(==)>(s: seq<T>) {
    forall i, j :: 0 <= i < j < |s| ==> s[i] != s[j]
  }

  predicate Sorted(s: seq<int>) {
    forall i, j :: 0 <= i < j < |s| ==> s[i] <= s[j]
  }

  predicate StrictlySorted(s: seq<int>) {
    forall i, j :: 0 <= i < j < |s| ==> s[i] < s[j]
  }

  /** `[...new Set(s)]`: the elements of `s` without repetitions, each kept at
      its first occurrence. */
  function Distinct<T(==, !new)>(s: seq<T>): (r: seq<T>)
    ensures forall x :: x in r <==> x in s
    ensures NoDup(r)
    ensures |r| <= |s|
    ensures |s| > 0 ==> |r| > 0 && r[0] == s[0]
  {
    if |s| == 0 then []
    else
      var init := s[..|s| - 1];
      assert s == init + [s[|s| - 1]];
      var d := Distinct(init);
      if s[|s| - 1] in d then d else d + [s[|s| - 1]]
  }

  /** A non-empty sequence of copies of one value has that value as its only
      distinct element. */
  lemma {:induction false} DistinctOfConstant<T(!new)>(s: seq<T>, x: T)
    requires |s| > 0 && forall y :: y in s ==> y == x
    ensures Distinct(s) == [x]
  {
    var init := s[..|s| - 1];
    assert s[|s| - 1] in s;
    if |init| > 0 {
      assert forall y :: y in init ==> y in s;
      DistinctOfConstant(init, x);
    }
  }

  /** Appending an element already present leaves `Distinct` unchanged;
      appending a new one adds it at the end. */
  lemma DistinctSnoc<T(!new)>(s: seq<T>, x: T)
    ensures x in s ==> Distinct(s + [x]) == Distinct(s)
    ensures x !in s ==> Distinct(s + [x]) == Distinct(s) + [x]
  {
    assert (s + [x])[..|s|] == s;
  }

  /** A duplicate-free sequence whose elements all lie in a two-element set
      containing both of them is that pair, in some order. */
  lemma NoDupPair<T>(r: seq<T>, a: T, b: T)
    requires NoDup(r) && a != b && a in r && b in r
    requires forall x :: x in r ==> x == a || x == b
    ensures |r| == 2
  {
    if |r| >= 3 {
      ThreeDistinctValues(r, a, b);
    }
    var i :| 0 <= i < |r| && r[i] == a;
    var j :| 0 <= j < |r| && r[j] == b;
    assert i != j;
  }

  lemma ThreeDistinctValues<T>(r: seq<T>, a: T, b: T)
    requires NoDup(r) && |r| >= 3
    ensures exists x :: x in r && x != a && x != b
  {
    assert r[0] != r[1] && r[0] != r[2] && r[1] != r[2];
    assert r[0] in r && r[1] in r && r[2] in r;
  }

  /** `Array.prototype.indexOf`: the first position of `x`, or -1. */
  function IndexOf<T(==)>(s: seq<T>, x: T): (r: int)
    ensures -1 <= r < |s|
    ensures r == -1 <==> x !in s
    ensures 0 <= r ==> s[r] == x && x !in s[..r]
  {
    if |s| == 0 then -1
    else if s[0] == x then 0
    else
      var k := IndexOf(s[1..], x);
      assert k >= 0 ==> s[..k + 1] == [s[0]] + s[1..][..k];
      if k == -1 then -1 else k + 1
  }

  lemma IndexOfDistinct<T>(s: seq<T>, k: int)
    requires NoDup(s) && 0 <= k < |s|
    ensures IndexOf(s, s[k]) == k
  {
    assert s[k] in s;
  }

  /** `.filter(x => x !== null)` on a sequence of optional values. */
  function Somes<T(!new)>(s: seq<Option<T>>): (r: seq<T>)
    ensures |r| <= |s|
    ensures forall x :: x in r <==> Some(x) in s
  {
    if |s| == 0 then []
    else
      var rest := Somes(s[1..]);
      assert s == [s[0]] + s[1..];
      if s[0].Some? then [s[0].value] + rest else rest
  }

  /** Filtering keeps every present value as often as it occurs. */
  lemma {:induction false} SomesCounts<T(!new)>(s: seq<Option<T>>)
    ensures forall x :: multiset(Somes(s))[x] == multiset(s)[Some(x)]
  {
    if |s| > 0 {
      assert s == [s[0]] + s[1..];
      SomesCounts(s[1..]);
      var rest := Somes(s[1..]);
      assert Somes(s) == if s[0].Some? then [s[0].value] + rest else rest;
      forall x ensures multiset(Somes(s))[x] == multiset(s)[Some(x)] {
        assert multiset(s)[Some(x)] == multiset([s[0]])[Some(x)] + multiset(s[1..])[Some(x)];
      }
    }
  }

  /** Filtering a concatenation filters each part and keeps their order. */
  lemma {:induction false} SomesAppend<T(!new)>(a: seq<Option<T>>, b: seq<Option<T>>)
    ensures Somes(a + b) == Somes(a) + Somes(b)
  {
    if |a| > 0 {
      assert (a + b)[1..] == a[1..] + b;
      SomesAppend(a[1..], b);
      if a[0].Some? {
        assert Somes(a + b) == [a[0].value] + (Somes(a[1..]) + Somes(b));
      }
    } else {
      assert a + b == b;
    }
  }

  /** Filtering one more entry adds its value, if present, at the end. */
  lemma SomesSnoc<T(!new)>(s: seq<Option<T>>, r: seq<T>, o: Option<T>)
    requires r == Somes(s)
    ensures Somes(s + [o]) == r + (if o.Some? then [o.value] else [])
  {
    SomesAppend(s, [o]);
    assert [o][1..] == [];
  }

  /** When every entry is present, filtering keeps all of them, in order. */
  lemma {:induction false} SomesAllPresent<T(!new)>(s: seq<Option<T>>)
    requires forall i :: 0 <= i < |s| ==> s[i].Some?
    ensures Somes(s) == seq(|s|, i requires 0 <= i < |s| => s[i].value)
  {
    if |s| > 0 {
      SomesAllPresent(s[1..]);
    }
  }

  /** `.find(x => x !== null)`: the first present value. */
  function FirstSome<T(!new)>(s: seq<Option<T>>): (r: Option<T>)
    ensures r == if Somes(s) == [] then None else Some(Somes(s)[0])
  {
    if |s| == 0 then None
    else if s[0].Some? then s[0]
    else FirstSome(s[1..])
  }

  lemma {:induction false} FirstSomeAt<T(!new)>(s: seq<Option<T>>, k: int)
    requires 0 <= k < |s| && s[k].Some?
    requires forall j :: 0 <= j < k ==> s[j].None?
    ensures FirstSome(s) == s[k]
  {
    if k > 0 {
      FirstSomeAt(s[1..], k - 1);
    }
  }

  /** `x` put before the first element of `s` that is not smaller. */
  function Insert(x: int, s: seq<int>): (r: seq<int>)
    ensures |r| == |s| + 1
    ensures multiset(r) == multiset(s) + multiset{x}
    ensures forall y :: y in r <==> y == x || y in s
  {
    if s == [] || x <= s[0] then [x] + s
    else
      assert s == [s[0]] + s[1..];
      [s[0]] + Insert(x, s[1..])
  }

  /** Inserting into a sorted sequence keeps it sorted (strictly so when `x`
      is new). */
  lemma {:induction false} InsertSorted(x: int, s: seq<int>)
    ensures Sorted(s) ==> Sorted(Insert(x, s))
    ensures StrictlySorted(s) && x !in s ==> StrictlySorted(Insert(x, s))
  {
    if s != [] && x > s[0] {
      assert s == [s[0]] + s[1..];
      var t := Insert(x, s[1..]);
      InsertSorted(x, s[1..]);
      ConsSorted(s[0], t, Sorted(s) && x > s[0], StrictlySorted(s) && x !in s);
    }
  }

  /** Putting `h` in front of a sorted `t` whose elements are all at least
      (or, with `strict`, above) `h` gives a sorted sequence. */
  lemma ConsSorted(h: int, t: seq<int>, weak: bool, strict: bool)
    requires weak ==> Sorted(t) && forall y :: y in t ==> h <= y
    requires strict ==> StrictlySorted(t) && forall y :: y in t ==> h < y
    ensures weak ==> Sorted([h] + t)
    ensures strict ==> StrictlySorted([h] + t)
  {
    if weak {
      forall i, j | 0 <= i < j < |[h] + t| ensures ([h] + t)[i] <= ([h] + t)[j] {
        if i == 0 { assert t[j - 1] in t; }
      }
    }
    if strict {
      forall i, j | 0 <= i < j < |[h] + t| ensures ([h] + t)[i] < ([h] + t)[j] {
        if i == 0 { assert t[j - 1] in t; }
      }
    }
  }

  /** `.sort((a, b) => a - b)`: ascending numeric order. */
  function Sort(s: seq<int>): (r: seq<int>)
    ensures |r| == |s|
    ensures multiset(r) == multiset(s)
    ensures forall y :: y in r <==> y in s
    ensures Sorted(r)
  {
    if s == [] then []
    else
      assert s == [s[0]] + s[1..];
      InsertSorted(s[0], Sort(s[1..]));
      Insert(s[0], Sort(s[1..]))
  }

  /** Sorting distinct values leaves them strictly ascending. */
  lemma {:induction false} SortStrict(s: seq<int>)
    requires NoDup(s)
    ensures StrictlySorted(Sort(s))
  {
    if s != [] {
      assert s == [s[0]] + s[1..];
      assert NoDup(s[1..]) && s[0] !in s[1..] by {
        forall i, j | 0 <= i < j < |s[1..]| ensures s[1..][i] != s[1..][j] {
          assert s[1..][i] == s[i + 1] && s[1..][j] == s[j + 1];
        }
      }
      SortStrict(s[1..]);
      InsertSorted(s[0], Sort(s[1..]));
    }
  }

  /** `String.prototype.startsWith`. */
  predicate StartsWith(s: string, prefix: string) {
    |prefix| <= |s| && s[..|prefix|] == prefix
  }

  /** A string starts with `prefix` exactly when it is `prefix` followed by
      the rest of it. */
  lemma StartsWithIff(s: string, prefix: string)
    ensures StartsWith(s, prefix) <==> |prefix| <= |s| && s == prefix + s[|prefix|..]
  {
    if |prefix| <= |s| && s == prefix + s[|prefix|..] {
      assert s[..|prefix|] == prefix;
    }
  }

  /** `String.prototype.includes`. */
  predicate Contains(s: string, sub: string)
    decreases |s|
  {
    StartsWith(s, sub) || (|s| > 0 && Contains(s[1..], sub))
  }

  /** `sub` occurs in `s`. */
  predicate OccursAt(s: string, sub: string, i: int) {
    0 <= i && i + |sub| <= |s| && s[i..i + |sub|] == sub
  }

  /** `includes` holds exactly when `sub` occurs at some position of `s`. */
  lemma {:induction false} ContainsIff(s: string, sub: string)
    ensures Contains(s, sub) <==> exists i :: OccursAt(s, sub, i)
    decreases |s|
  {
    if StartsWith(s, sub) {
      assert OccursAt(s, sub, 0);
    } else if |s| > 0 {
      ContainsIff(s[1..], sub);
      if Contains(s[1..], sub) {
        var i :| OccursAt(s[1..], sub, i);
        assert s[i + 1..i + 1 + |sub|] == s[1..][i..i + |sub|];
        assert OccursAt(s, sub, i + 1);
      }
      if exists i :: OccursAt(s, sub, i) {
        var i :| OccursAt(s, sub, i);
        assert i != 0;
        assert s[1..][i - 1..i - 1 + |sub|] == s[i..i + |sub|];
        assert OccursAt(s[1..], sub, i - 1);
      }
    }
  }

  /** `Array.prototype.join`. */
  function Join(xs: seq<string>, sep: string): string {
    if |xs| == 0 then ""
    else if |xs| == 1 then xs[0]
    else xs[0] + sep + Join(xs[1..], sep)
  }

  /** Joining two non-empty lists one after the other puts one separator
      between their joins. */
  lemma {:induction false} JoinAppend(xs: seq<string>, ys: seq<string>, sep: string)
    requires |xs| > 0 && |ys| > 0
    ensures Join(xs + ys, sep) == Join(xs, sep) + sep + Join(ys, sep)
  {
    if |xs| > 1 {
      assert (xs + ys)[1..] == xs[1..] + ys;
      JoinAppend(xs[1..], ys, sep);
    } else {
      assert (xs + ys)[1..] == ys;
    }
  }

  /** The length of a join: the parts plus one separator between each pair. */
  function TotalLength(xs: seq<string>): nat {
    if |xs| == 0 then 0 else |xs[0]| + TotalLength(xs[1..])
  }

  lemma {:induction false} JoinLength(xs: seq<string>, sep: string)
    requires |xs| > 0
    ensures |Join(xs, sep)| == TotalLength(xs) + (|xs| - 1) * |sep|
  {
    if |xs| > 1 {
      JoinLength(xs[1..], sep);
    }
  }
}
