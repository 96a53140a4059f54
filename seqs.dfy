/**
 * Generic sequence tools shared by the models: list comprehensions with a condition,
 * Python slicing with negative bounds, `list.sort` with a key, and per-key count
 * dictionaries built with `d[k] = d.get(k, 0) + 1`.
 */
module Seqs {
  import opened Wrappers

  /** `[x for x in s if f(x)]` */
  function Filter<T>(s: seq<T>, f: T -> bool): (r: seq<T>)
    ensures |r| <= |s|
    ensures forall i :: 0 <= i < |r| ==> f(r[i])
  {
    if s == [] then [] else (if f(s[0]) then [s[0]] else []) + Filter(s[1..], f)
  }

  lemma {:induction false} FilterAppend<T>(a: seq<T>, b: seq<T>, f: T -> bool)
    ensures Filter(a + b, f) == Filter(a, f) + Filter(b, f)
    decreases |a|
  {
    if a == [] {
      assert a + b == b;
    } else {
      assert (a + b)[1..] == a[1..] + b;
      FilterAppend(a[1..], b, f);
    }
  }

  /** The step a loop over `s` takes: filtering one more element. */
  lemma FilterSnoc<T>(s: seq<T>, i: nat, f: T -> bool)
    requires i < |s|
    ensures Filter(s[..i + 1], f) == Filter(s[..i], f) + (if f(s[i]) then [s[i]] else [])
  {
    assert s[..i + 1] == s[..i] + [s[i]];
    FilterAppend(s[..i], [s[i]], f);
  }

  /** Exactly the elements of `s` that satisfy `f` are kept. */
  lemma {:induction false} FilterMembers<T>(s: seq<T>, f: T -> bool)
    ensures forall x :: x in Filter(s, f) <==> x in s && f(x)
    decreases |s|
  {
    if s != [] {
      FilterMembers(s[1..], f);
      assert forall x :: x in s <==> x == s[0] || x in s[1..];
    }
  }

  /** The result is empty iff no element satisfies `f`. */
  lemma FilterEmpty<T>(s: seq<T>, f: T -> bool)
    ensures Filter(s, f) == [] <==> forall i :: 0 <= i < |s| ==> !f(s[i])
  {
    FilterMembers(s, f);
    if Filter(s, f) != [] {
      assert Filter(s, f)[0] in Filter(s, f);
    }
    forall i | 0 <= i < |s| && f(s[i])
      ensures Filter(s, f) != []
    {
      assert s[i] in s;
    }
  }

  /** The first element kept is the first element of `s` satisfying `f`. */
  lemma {:induction false} FilterHead<T>(s: seq<T>, f: T -> bool, k: nat)
    requires k < |s| && f(s[k]) && forall j :: 0 <= j < k ==> !f(s[j])
    ensures Filter(s, f) != [] && Filter(s, f)[0] == s[k]
    decreases k
  {
    if k > 0 {
      FilterHead(s[1..], f, k - 1);
    }
  }

  /** Filtering with a condition that always holds keeps everything. */
  lemma {:induction false} FilterAll<T>(s: seq<T>, f: T -> bool)
    requires forall i :: 0 <= i < |s| ==> f(s[i])
    ensures Filter(s, f) == s
    decreases |s|
  {
    if s != [] {
      FilterAll(s[1..], f);
    }
  }

  /** No element occurs twice. */
  predicate Distinct<T(==)>(s: seq<T>)
  {
    forall i, j :: 0 <= i < j < |s| ==> s[i] != s[j]
  }

  /** A sequence without repetitions has as many elements as its set. */
  lemma {:induction false} DistinctCard<T>(s: seq<T>)
    requires Distinct(s)
    ensures |set x | x in s| == |s|
    decreases |s|
  {
    if s != [] {
      DistinctCard(s[1..]);
      assert (set x | x in s) == (set x | x in s[1..]) + {s[0]};
      assert s[0] !in s[1..];
    }
  }

  /** The first element, if any (`s[0] if s else None`). */
  function First<T>(s: seq<T>): (r: Option<T>)
    ensures r.None? <==> s == []
    ensures r.Some? ==> r.value == s[0]
  {
    if s == [] then None else Some(s[0])
  }

  /** Python's normalisation of a slice bound `k` against a length `n`. */
  function PyBound(n: nat, k: int): (b: nat)
    ensures b <= n
    ensures 0 <= k <= n ==> b == k
    ensures k > n ==> b == n
    ensures k < 0 ==> b == if n + k < 0 then 0 else n + k
  {
    if k < 0 then (if n + k < 0 then 0 else n + k) else if k > n then n else k
  }

  /** `s[:k]` */
  function PyTake<T>(s: seq<T>, k: int): seq<T>
  {
    s[..PyBound(|s|, k)]
  }

  /** `s[k:]` */
  function PyDrop<T>(s: seq<T>, k: int): seq<T>
  {
    s[PyBound(|s|, k)..]
  }

  /** `leq` orders every pair and is transitive: what a sort key's comparison provides. */
  ghost predicate TotalPreorder<T(!new)>(leq: (T, T) -> bool)
  {
    (forall a, b :: leq(a, b) || leq(b, a))
    && (forall a, b, c :: leq(a, b) && leq(b, c) ==> leq(a, c))
  }

  ghost predicate Sorted<T>(s: seq<T>, leq: (T, T) -> bool)
  {
    forall i, j :: 0 <= i < j < |s| ==> leq(s[i], s[j])
  }

  /** Places `x` in front of the first element it does not come after; earlier equal elements stay first. */
  function Insert<T>(x: T, s: seq<T>, leq: (T, T) -> bool): seq<T>
  {
    if s == [] then [x]
    else if leq(x, s[0]) then [x] + s
    else [s[0]] + Insert(x, s[1..], leq)
  }

  /** `sorted(s, key=...)`: a stable insertion sort. */
  function Sort<T>(s: seq<T>, leq: (T, T) -> bool): seq<T>
  {
    if s == [] then [] else Insert(s[0], Sort(s[1..], leq), leq)
  }

  lemma {:induction false} InsertPermutes<T>(x: T, s: seq<T>, leq: (T, T) -> bool)
    ensures multiset(Insert(x, s, leq)) == multiset(s) + multiset{x}
    decreases |s|
  {
    if s != [] && !leq(x, s[0]) {
      InsertPermutes(x, s[1..], leq);
      assert s == [s[0]] + s[1..];
    }
  }

  lemma {:induction false} InsertSorted<T(!new)>(x: T, s: seq<T>, leq: (T, T) -> bool)
    requires TotalPreorder(leq) && Sorted(s, leq)
    ensures Sorted(Insert(x, s, leq), leq)
    decreases |s|
  {
    if s == [] {
    } else if leq(x, s[0]) {
      var r := [x] + s;
      forall i, j | 0 <= i < j < |r|
        ensures leq(r[i], r[j])
      {
        if i == 0 && j > 1 {
          assert leq(s[0], s[j - 1]);
        }
      }
    } else {
      var t := Insert(x, s[1..], leq);
      InsertSorted(x, s[1..], leq);
      InsertLowerBound(s[0], x, s[1..], leq);
      var r := [s[0]] + t;
      forall i, j | 0 <= i < j < |r|
        ensures leq(r[i], r[j])
      {
        if i == 0 {
          assert r[j] == t[j - 1];
        } else {
          assert r[i] == t[i - 1] && r[j] == t[j - 1];
        }
      }
    }
  }

  /** A lower bound of `x` and of every element of `s` bounds every element of the insertion. */
  lemma {:induction false} InsertLowerBound<T>(y: T, x: T, s: seq<T>, leq: (T, T) -> bool)
    requires leq(y, x) && forall k :: 0 <= k < |s| ==> leq(y, s[k])
    ensures forall j :: 0 <= j < |Insert(x, s, leq)| ==> leq(y, Insert(x, s, leq)[j])
    decreases |s|
  {
    if s != [] && !leq(x, s[0]) {
      InsertLowerBound(y, x, s[1..], leq);
      var t := Insert(x, s[1..], leq);
      assert forall j :: 1 <= j < |[s[0]] + t| ==> ([s[0]] + t)[j] == t[j - 1];
    }
  }

  /** The sorted list is ordered by `leq`. */
  lemma {:induction false} SortSorted<T(!new)>(s: seq<T>, leq: (T, T) -> bool)
    requires TotalPreorder(leq)
    ensures Sorted(Sort(s, leq), leq)
    decreases |s|
  {
    if s != [] {
      SortSorted(s[1..], leq);
      InsertSorted(s[0], Sort(s[1..], leq), leq);
    }
  }

  /** The sorted list holds exactly the elements of `s`, each as often. */
  lemma {:induction false} SortPermutes<T>(s: seq<T>, leq: (T, T) -> bool)
    ensures multiset(Sort(s, leq)) == multiset(s)
    decreases |s|
  {
    if s != [] {
      SortPermutes(s[1..], leq);
      InsertPermutes(s[0], Sort(s[1..], leq), leq);
      assert s == [s[0]] + s[1..];
    }
  }

  /** One entry of a count dictionary. */
  datatype Entry = Entry(key: string, count: nat)

  /** `d[k] = d.get(k, 0) + 1` on a dictionary kept in insertion order. */
  function Bump(t: seq<Entry>, k: string): seq<Entry>
  {
    if t == [] then [Entry(k, 1)]
    else if t[0].key == k then [Entry(k, t[0].count + 1)] + t[1..]
    else [t[0]] + Bump(t[1..], k)
  }

  /** The count dictionary a loop over `keys` builds with `Bump`. */
  function TallyOf(keys: seq<string>): seq<Entry>
  {
    if keys == [] then [] else Bump(TallyOf(keys[..|keys| - 1]), keys[|keys| - 1])
  }

  /** The sum of the dictionary's values. */
  function Total(t: seq<Entry>): nat
  {
    if t == [] then 0 else t[0].count + Total(t[1..])
  }

  /** `d.get(k, 0)` */
  function CountOf(t: seq<Entry>, k: string): nat
  {
    if t == [] then 0 else if t[0].key == k then t[0].count else CountOf(t[1..], k)
  }

  ghost predicate KeysDistinct(t: seq<Entry>)
  {
    forall i, j :: 0 <= i < j < |t| ==> t[i].key != t[j].key
  }

  lemma {:induction false} BumpTotal(t: seq<Entry>, k: string)
    ensures Total(Bump(t, k)) == Total(t) + 1
    decreases |t|
  {
    if t != [] && t[0].key != k {
      BumpTotal(t[1..], k);
    }
  }

  /** Bumping keeps the keys distinct and adds no entry except one for `k`. */
  lemma {:induction false} BumpKeys(t: seq<Entry>, k: string)
    requires KeysDistinct(t)
    ensures KeysDistinct(Bump(t, k))
    ensures forall e :: e in Bump(t, k) ==> e.key == k || e in t
    decreases |t|
  {
    if t != [] && t[0].key != k {
      BumpKeys(t[1..], k);
      var b := Bump(t[1..], k);
      forall i | 0 <= i < |b|
        ensures b[i].key != t[0].key
      {
        assert b[i] in b;
        if b[i].key != k {
          assert b[i] in t[1..];
        }
      }
    }
  }

  /** Bumping `k` adds one to the count of `k` and leaves every other count alone. */
  lemma {:induction false} BumpCount(t: seq<Entry>, k: string, q: string)
    ensures CountOf(Bump(t, k), q) == CountOf(t, q) + (if q == k then 1 else 0)
    decreases |t|
  {
    if t != [] && t[0].key != k {
      BumpCount(t[1..], k, q);
      if q == t[0].key {
        assert CountOf(Bump(t, k), q) == t[0].count;
      }
    } else if t != [] {
      if q != k {
        assert CountOf(Bump(t, k), q) == CountOf(t[1..], q);
      }
    }
  }

  /** The counts of a tally add up to the number of keys counted. */
  lemma {:induction false} TallyTotal(keys: seq<string>)
    ensures Total(TallyOf(keys)) == |keys|
    decreases |keys|
  {
    if keys != [] {
      TallyTotal(keys[..|keys| - 1]);
      BumpTotal(TallyOf(keys[..|keys| - 1]), keys[|keys| - 1]);
    }
  }

  /** The tally counts each key as often as it occurs, and lists each key once. */
  lemma {:induction false} TallyCounts(keys: seq<string>, q: string)
    ensures KeysDistinct(TallyOf(keys))
    ensures CountOf(TallyOf(keys), q) == multiset(keys)[q]
    decreases |keys|
  {
    if keys != [] {
      var init := keys[..|keys| - 1];
      TallyCounts(init, q);
      BumpKeys(TallyOf(init), keys[|keys| - 1]);
      BumpCount(TallyOf(init), keys[|keys| - 1], q);
      assert keys == init + [keys[|keys| - 1]];
      assert multiset(keys) == multiset(init) + multiset{keys[|keys| - 1]};
    }
  }

  /** `[key(x) for x in s]` */
  function MapSeq<T, U>(s: seq<T>, key: T -> U): (r: seq<U>)
    ensures |r| == |s| && forall i :: 0 <= i < |s| ==> r[i] == key(s[i])
  {
    seq(|s|, i requires 0 <= i < |s| => key(s[i]))
  }

  lemma MapSeqSnoc<T, U>(s: seq<T>, i: nat, key: T -> U)
    requires i < |s|
    ensures MapSeq(s[..i + 1], key) == MapSeq(s[..i], key) + [key(s[i])]
  {
  }
}
