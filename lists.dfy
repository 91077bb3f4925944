/**
 * Sequence operations the components use through JavaScript's array methods:
 * `indexOf`/`findIndex`, `filter(e => e !== x)`, `includes`, and the flattening
 * of a catalog written as consecutive groups.
 */
module Lists {

  /** No element occurs twice. */
  predicate NoDup<T(==)>(s: seq<T>) {
    forall i, j :: 0 <= i < j < |s| ==> s[i] != s[j]
  }

  /** Index of the first occurrence of `x` in `s`, or -1 when there is none. */
  function IndexOf<T(==)>(s: seq<T>, x: T): (i: int)
    ensures -1 <= i < |s|
    ensures i >= 0 ==> s[i] == x && forall j :: 0 <= j < i ==> s[j] != x
    ensures i == -1 <==> x !in s
  {
    if s == [] then -1
    else if s[0] == x then 0
    else
      var k := IndexOf(s[1..], x);
      if k == -1 then -1 else k + 1
  }

  /** In a sequence without repetitions, looking up the element at `k` gives `k` back. */
  lemma IndexOfAt<T>(s: seq<T>, k: int)
    requires NoDup(s) && 0 <= k < |s|
    ensures IndexOf(s, s[k]) == k
  {
  }

  /** Appending never moves the first occurrence of an element already present. */
  lemma {:induction false} IndexOfAppend<T>(s: seq<T>, y: T, x: T)
    ensures IndexOf(s + [y], x) == if x in s then IndexOf(s, x) else if x == y then |s| else -1
  {
    if s != [] {
      assert (s + [y])[1..] == s[1..] + [y];
      IndexOfAppend(s[1..], y, x);
    }
  }

  /** `s` with every occurrence of `x` taken out, order kept. */
  function RemoveAll<T(==)>(s: seq<T>, x: T): (r: seq<T>)
    ensures x !in r
    ensures forall y <- r :: y in s
    ensures forall y <- s :: y != x ==> y in r
    ensures x in s ==> |r| < |s|
    ensures x !in s ==> r == s
    ensures NoDup(s) ==> NoDup(r)
  {
    if s == [] then []
    else
      var rest := RemoveAll(s[1..], x);
      if s[0] == x then rest
      else
        assert NoDup(s) ==> NoDup(s[1..]) by {
          if NoDup(s) {
            forall i, j | 0 <= i < j < |s[1..]| ensures s[1..][i] != s[1..][j] {
              assert s[1..][i] == s[i + 1] && s[1..][j] == s[j + 1];
            }
          }
        }
        var r := [s[0]] + rest;
        assert NoDup(s) ==> NoDup(r) by {
          if NoDup(s) {
            assert s[0] !in s[1..];
            forall i, j | 0 <= i < j < |r| ensures r[i] != r[j] {
              if i == 0 { assert r[j] == rest[j - 1] && rest[j - 1] in rest; }
            }
          }
        }
        r
  }

  /** Removal commutes with appending: order is kept and only `x` is dropped. */
  lemma {:induction false} RemoveAllAppend<T>(s: seq<T>, y: T, x: T)
    ensures RemoveAll(s + [y], x) == RemoveAll(s, x) + (if y == x then [] else [y])
  {
    if s == [] {
      assert [] + [y] == [y];
    } else {
      assert (s + [y])[1..] == s[1..] + [y];
      RemoveAllAppend(s[1..], y, x);
    }
  }

  /** Appending an element that is not yet present keeps a sequence free of repetitions. */
  lemma NoDupAppend<T>(s: seq<T>, x: T)
    requires NoDup(s) && x !in s
    ensures NoDup(s + [x])
  {
  }

  /** Prepending an element that is not yet present keeps a sequence free of repetitions. */
  lemma NoDupPrepend<T>(x: T, s: seq<T>)
    requires NoDup(s) && x !in s
    ensures NoDup([x] + s)
  {
    forall i, j | 0 <= i < j < |[x] + s| ensures ([x] + s)[i] != ([x] + s)[j] {
      assert ([x] + s)[j] == s[j - 1];
    }
  }

  /** `t` occurs in `s` starting at index `i`. */
  predicate OccursAt<T(==)>(s: seq<T>, t: seq<T>, i: int) {
    0 <= i && i + |t| <= |s| && s[i..i + |t|] == t
  }

  /** Whether `t` occurs as a contiguous piece of `s`, as `String.prototype.includes` decides. */
  function Contains<T(==)>(s: seq<T>, t: seq<T>): (b: bool)
    ensures b <==> exists i :: OccursAt(s, t, i)
    decreases |s|
  {
    if |t| > |s| then false
    else if s[..|t|] == t then
      assert OccursAt(s, t, 0);
      true
    else
      var b := Contains(s[1..], t);
      assert b ==> exists i :: OccursAt(s, t, i) by {
        if b {
          var i :| OccursAt(s[1..], t, i);
          assert s[i + 1..i + 1 + |t|] == s[1..][i..i + |t|];
          assert OccursAt(s, t, i + 1);
        }
      }
      assert (exists i :: OccursAt(s, t, i)) ==> b by {
        if exists i :: OccursAt(s, t, i) {
          var i :| OccursAt(s, t, i);
          assert i != 0;
          assert s[1..][i - 1..i - 1 + |t|] == s[i..i + |t|];
          assert OccursAt(s[1..], t, i - 1);
        }
      }
      b
  }

  /** Two sequences without repetitions and without a common element concatenate without repetitions. */
  lemma NoDupConcat<T>(a: seq<T>, b: seq<T>)
    requires NoDup(a) && NoDup(b)
    requires forall i, j :: 0 <= i < |a| && 0 <= j < |b| ==> a[i] != b[j]
    ensures NoDup(a + b)
  {
    forall i, j | 0 <= i < j < |a + b| ensures (a + b)[i] != (a + b)[j] {
      if j < |a| {
        assert (a + b)[i] == a[i] && (a + b)[j] == a[j];
      } else if i >= |a| {
        assert (a + b)[i] == b[i - |a|] && (a + b)[j] == b[j - |a|];
      } else {
        assert (a + b)[i] == a[i] && (a + b)[j] == b[j - |a|];
      }
    }
  }

  /** The groups of `ss` laid end to end. */
  function Flatten<T>(ss: seq<seq<T>>): (r: seq<T>)
    ensures forall g, k :: 0 <= g < |ss| && 0 <= k < |ss[g]| ==> ss[g][k] in r
    ensures forall x :: x in r ==> exists g :: 0 <= g < |ss| && x in ss[g]
  {
    if ss == [] then []
    else
      var rest := Flatten(ss[1..]);
      assert forall x :: x in rest ==> exists g :: 0 <= g < |ss| && x in ss[g] by {
        forall x | x in rest ensures exists g :: 0 <= g < |ss| && x in ss[g] {
          var g :| 0 <= g < |ss[1..]| && x in ss[1..][g];
          assert x in ss[g + 1];
        }
      }
      ss[0] + rest
  }

  /** Groups of equal size `m` flatten to `m` elements per group. */
  lemma {:induction false} FlattenLength<T>(ss: seq<seq<T>>, m: nat)
    requires forall g :: 0 <= g < |ss| ==> |ss[g]| == m
    ensures |Flatten(ss)| == m * |ss|
  {
    if ss != [] {
      FlattenLength(ss[1..], m);
      assert Flatten(ss) == ss[0] + Flatten(ss[1..]);
      assert m * |ss| == m * |ss[1..]| + m by {
        assert |ss| == |ss[1..]| + 1;
      }
    }
  }
}
