/** Small value types and sequence facts shared by the models. */
module Common {
  datatype Option<+T> = None | Some(value: T)

  datatype Result<+T, +E> = Ok(value: T) | Err(error: E)

  function Max(a: int, b: int): int { if a >= b then a else b }

  function Min(a: int, b: int): int { if a <= b then a else b }

  function Abs(a: int): int { if a >= 0 then a else -a }

  /** The instant k steps from the origin. */
  function At(origin: int, step: int, k: int): int {
    origin + step * k
  }

  lemma AtMonotone(origin: int, step: int, i: int, j: int)
    requires step > 0 && i < j
    ensures At(origin, step, i) + step <= At(origin, step, j)
  {
    assert step * (j - i - 1) >= 0;
  }

  predicate StrictlyIncreasing(s: seq<int>) {
    forall i, j :: 0 <= i < j < |s| ==> s[i] < s[j]
  }

  lemma Regroup<T>(a: seq<T>, b: seq<T>, c: seq<T>)
    ensures (a + b) + c == a + (b + c)
  {
  }

  function Concat<T>(parts: seq<seq<T>>): seq<T> {
    if parts == [] then [] else parts[0] + Concat(parts[1..])
  }

  lemma {:induction false} ConcatAppend<T>(parts: seq<seq<T>>, more: seq<seq<T>>)
    ensures Concat(parts + more) == Concat(parts) + Concat(more)
  {
    if parts == [] {
      assert parts + more == more;
    } else {
      assert (parts + more)[1..] == parts[1..] + more;
      ConcatAppend(parts[1..], more);
    }
  }

  lemma ConcatSnoc<T>(parts: seq<seq<T>>, last: seq<T>)
    ensures Concat(parts + [last]) == Concat(parts) + last
  {
    ConcatAppend(parts, [last]);
    assert Concat([last]) == last + Concat([last][1..]);
  }

  lemma ConcatFirst<T>(parts: seq<seq<T>>)
    requires parts != []
    ensures var all, n := Concat(parts), |parts[0]|;
            n <= |all| && all[..n] == parts[0] && all[n..] == Concat(parts[1..])
  {
  }

  lemma TakeDrop<T>(s: seq<T>, n: nat)
    requires n <= |s|
    ensures s[..n] + s[n..] == s
  {
  }

  lemma TakeOne<T>(s: seq<T>, i: nat)
    requires i < |s|
    ensures s[..i + 1] == s[..i] + [s[i]] && s[..i + 1][..i] == s[..i]
  {
  }

  lemma DropOne<T>(s: seq<T>, i: nat)
    requires i < |s|
    ensures s[i..][1..] == s[i + 1..] && s[i..][0] == s[i]
  {
  }

  lemma SliceBothWays<T>(s: seq<T>, i: nat, j: nat)
    requires i <= j <= |s|
    ensures s[i..][..j - i] == s[..j][i..] == s[..j][i..j] == s[i..j]
  {
  }

  lemma {:induction false} DistinctCount<T>(q: seq<T>, x: T)
    requires forall a, b :: 0 <= a < b < |q| ==> q[a] != q[b]
    ensures multiset(q)[x] <= 1
  {
    if q == [] {
    } else {
      DistinctCount(q[1..], x);
      assert q == [q[0]] + q[1..];
      if q[0] == x {
        assert x !in q[1..];
      }
    }
  }

  // ---- what a list built from another one holds ----

  /** Element k of `out` is made, as `of` says, from element index[k] of xs; these are, in order, all
      the elements for which `chosen` holds. */
  ghost predicate Picks<S, T>(out: seq<T>, xs: seq<S>, chosen: S -> bool, of: (S, T) -> bool, index: seq<nat>) {
    && |index| == |out|
    && (forall k, l :: 0 <= k < l < |index| ==> index[k] < index[l])
    && (forall i: nat :: i < |xs| && chosen(xs[i]) ==> i in index)
    && (forall k :: 0 <= k < |index| ==> index[k] < |xs| && chosen(xs[index[k]]) && of(xs[index[k]], out[k]))
  }

  /** `out` is made from exactly the elements of xs for which `chosen` holds, in order. */
  ghost predicate Selected<S, T>(out: seq<T>, xs: seq<S>, chosen: S -> bool, of: (S, T) -> bool) {
    exists index: seq<nat> :: Picks(out, xs, chosen, of, index)
  }

  lemma SelectedNone<S, T>(chosen: S -> bool, of: (S, T) -> bool)
    ensures Selected([], [], chosen, of)
  {
    assert Picks([], [], chosen, of, []);
  }

  lemma SelectedOneMore<S, T>(out: seq<T>, xs: seq<S>, x: S, added: seq<T>, chosen: S -> bool, of: (S, T) -> bool)
    requires Selected(out, xs, chosen, of)
    requires if chosen(x) then |added| == 1 && of(x, added[0]) else added == []
    ensures Selected(out + added, xs + [x], chosen, of)
  {
    var index: seq<nat> :| Picks(out, xs, chosen, of, index);
    if chosen(x) {
      assert added == [added[0]];
      PicksAdd(out, xs, x, added[0], chosen, of, index);
    } else {
      assert out + added == out;
      PicksSkip(out, xs, x, chosen, of, index);
    }
  }

  lemma PicksAdd<S, T>(out: seq<T>, xs: seq<S>, x: S, y: T, chosen: S -> bool, of: (S, T) -> bool, index: seq<nat>)
    requires Picks(out, xs, chosen, of, index) && chosen(x) && of(x, y)
    ensures Picks(out + [y], xs + [x], chosen, of, index + [|xs|])
  {
    var more := index + [|xs|];
    forall i: nat | i < |xs| + 1 && chosen((xs + [x])[i]) ensures i in more {
      if i < |xs| {
        assert (xs + [x])[i] == xs[i] && i in index;
      } else {
        assert more[|index|] == i;
      }
    }
  }

  lemma PicksSkip<S, T>(out: seq<T>, xs: seq<S>, x: S, chosen: S -> bool, of: (S, T) -> bool, index: seq<nat>)
    requires Picks(out, xs, chosen, of, index) && !chosen(x)
    ensures Picks(out, xs + [x], chosen, of, index)
  {
  }

  /** Its length is the number of the elements chosen. */
  lemma SelectedSize<S, T>(out: seq<T>, xs: seq<S>, chosen: S -> bool, of: (S, T) -> bool, which: set<nat>)
    requires Selected(out, xs, chosen, of) && forall i: nat :: i in which <==> i < |xs| && chosen(xs[i])
    ensures |out| == |which|
  {
    var index: seq<nat> :| Picks(out, xs, chosen, of, index);
    DistinctSet(index, which);
  }

  lemma {:induction false} DistinctSet(index: seq<nat>, which: set<nat>)
    requires forall k, l :: 0 <= k < l < |index| ==> index[k] < index[l]
    requires forall i: nat :: i in which <==> i in index
    ensures |index| == |which|
    decreases |index|
  {
    if index == [] {
      assert which == {};
    } else {
      var n := |index| - 1;
      var last := index[n];
      assert last in index;
      forall i: nat ensures i in which - {last} <==> i in index[..n] {
        if i in index[..n] {
          var k :| 0 <= k < n && index[..n][k] == i;
          assert index[k] == i;
        }
      }
      DistinctSet(index[..n], which - {last});
    }
  }
}
