/** Generic folds over sequences shared by the modules. */
module Seqs {
  import opened Wrappers

  /** Apply `f` to every element in order; the first error aborts (a list comprehension whose body may raise). */
  function MapUntilError<A, B, E>(xs: seq<A>, f: A -> Result<B, E>): Result<seq<B>, E>
  {
    if xs == [] then Ok([])
    else
      match MapUntilError(xs[..|xs| - 1], f)
      case Err(e) => Err(e)
      case Ok(ys) =>
        match f(xs[|xs| - 1])
        case Err(e) => Err(e)
        case Ok(y) => Ok(ys + [y])
  }

  /** Extending the prefix by one element extends the results by its result, or fails with its error. */
  lemma MapUntilErrorStep<A, B, E>(xs: seq<A>, k: nat, ys: seq<B>, f: A -> Result<B, E>)
    requires k < |xs| && MapUntilError(xs[..k], f) == Ok(ys)
    ensures f(xs[k]).Ok? ==> MapUntilError(xs[..k + 1], f) == Ok(ys + [f(xs[k]).value])
    ensures f(xs[k]).Err? ==> MapUntilError(xs, f) == Err(f(xs[k]).error)
  {
    assert xs[..k + 1][..k] == xs[..k];
    if f(xs[k]).Err? {
      PrefixErrorSticks(xs, k + 1, f);
    }
  }

  /** Once a prefix fails, the whole map fails with that error. */
  lemma {:induction false} PrefixErrorSticks<A, B, E>(xs: seq<A>, k: nat, f: A -> Result<B, E>)
    requires k <= |xs| && MapUntilError(xs[..k], f).Err?
    ensures MapUntilError(xs, f) == MapUntilError(xs[..k], f)
    decreases |xs| - k
  {
    if k < |xs| {
      assert xs[..k + 1][..k] == xs[..k];
      PrefixErrorSticks(xs, k + 1, f);
    } else {
      assert xs[..k] == xs;
    }
  }

  /** The map succeeds exactly when `f` succeeds everywhere, and then holds the results in order. */
  lemma {:induction false} MapUntilErrorOk<A, B, E>(xs: seq<A>, f: A -> Result<B, E>)
    ensures MapUntilError(xs, f).Ok? <==> forall i :: 0 <= i < |xs| ==> f(xs[i]).Ok?
    ensures MapUntilError(xs, f).Ok? ==>
              |MapUntilError(xs, f).value| == |xs|
              && forall i :: 0 <= i < |xs| ==> f(xs[i]) == Ok(MapUntilError(xs, f).value[i])
  {
    if xs != [] {
      var init := xs[..|xs| - 1];
      MapUntilErrorOk(init, f);
      assert forall j :: 0 <= j < |init| ==> init[j] == xs[j];
    }
  }

  /** A failing map reports the error of the first element that fails. */
  lemma MapUntilErrorFirst<A, B, E>(xs: seq<A>, i: nat, f: A -> Result<B, E>)
    requires i < |xs| && f(xs[i]).Err?
    requires forall j :: 0 <= j < i ==> f(xs[j]).Ok?
    ensures MapUntilError(xs, f) == Err(f(xs[i]).error)
  {
    var prefix := xs[..i];
    MapUntilErrorOk(prefix, f);
    assert forall j :: 0 <= j < i ==> prefix[j] == xs[j];
    assert xs[..i + 1][..i] == prefix;
    PrefixErrorSticks(xs, i + 1, f);
  }


  /** The leftmost `i` in `[p, n]` passing `test`, or `n + 1` when none does. */
  function First(test: nat -> bool, p: nat, n: nat): (i: nat)
    requires p <= n
    ensures p <= i <= n + 1
    ensures i <= n ==> test(i)
    ensures forall j :: p <= j < i && j <= n ==> !test(j)
    decreases n - p
  {
    if test(p) then p
    else if p == n then n + 1
    else First(test, p + 1, n)
  }

  /** The dictionary filled by visiting `ks` in order and storing `f(k)` for each key where `f` gives a value. */
  function Collect<K, V>(ks: seq<K>, f: K -> Option<V>): map<K, V>
  {
    if ks == [] then map[]
    else
      var m := Collect(ks[..|ks| - 1], f);
      var k := ks[|ks| - 1];
      if f(k).Some? then m[k := f(k).value] else m
  }

  /** A key is stored exactly when it was visited and `f` gives a value for it, and then it holds that value. */
  lemma {:induction false} CollectSpec<K, V>(ks: seq<K>, f: K -> Option<V>)
    ensures forall k :: k in Collect(ks, f) <==> k in ks && f(k).Some?
    ensures forall k :: k in Collect(ks, f) ==> Collect(ks, f)[k] == f(k).value
  {
    if ks != [] {
      var init := ks[..|ks| - 1];
      CollectSpec(init, f);
      assert ks == init + [ks[|ks| - 1]];
    }
  }

  lemma CollectStep<K, V>(ks: seq<K>, i: nat, f: K -> Option<V>)
    requires i < |ks|
    ensures Collect(ks[..i + 1], f) ==
              if f(ks[i]).Some? then Collect(ks[..i], f)[ks[i] := f(ks[i]).value] else Collect(ks[..i], f)
  {
    assert ks[..i + 1][..i] == ks[..i];
  }

  /** `[f(x) for x in xs]`, for an `f` defined on every element. */
  function Map<A, B>(xs: seq<A>, f: A --> B): (r: seq<B>)
    requires forall i :: 0 <= i < |xs| ==> f.requires(xs[i])
    ensures |r| == |xs| && forall i :: 0 <= i < |xs| ==> r[i] == f(xs[i])
  {
    if xs == [] then [] else Map(xs[..|xs| - 1], f) + [f(xs[|xs| - 1])]
  }

  /** The concatenation of `f` over the elements, in order. */
  function FlatMap<A, B>(xs: seq<A>, f: A -> seq<B>): seq<B>
  {
    if xs == [] then [] else FlatMap(xs[..|xs| - 1], f) + f(xs[|xs| - 1])
  }

  lemma FlatMapStep<A, B>(xs: seq<A>, k: nat, f: A -> seq<B>)
    requires k < |xs|
    ensures FlatMap(xs[..k + 1], f) == FlatMap(xs[..k], f) + f(xs[k])
  {
    assert xs[..k + 1][..k] == xs[..k];
  }

  lemma {:induction false} FlatMapAppend<A, B>(xs: seq<A>, ys: seq<A>, f: A -> seq<B>)
    ensures FlatMap(xs + ys, f) == FlatMap(xs, f) + FlatMap(ys, f)
    decreases |ys|
  {
    if ys == [] {
      assert xs + ys == xs;
    } else {
      assert (xs + ys)[..|xs + ys| - 1] == xs + ys[..|ys| - 1];
      FlatMapAppend(xs, ys[..|ys| - 1], f);
    }
  }

  lemma {:induction false} FlatMapBounded<A, B>(xs: seq<A>, f: A -> seq<B>)
    requires forall x :: x in xs ==> |f(x)| <= 1
    ensures |FlatMap(xs, f)| <= |xs|
  {
    if xs != [] {
      FlatMapBounded(xs[..|xs| - 1], f);
      assert xs[|xs| - 1] in xs;
    }
  }

  /** Elements that contribute nothing leave nothing. */
  lemma {:induction false} FlatMapEmpty<A, B>(xs: seq<A>, f: A -> seq<B>)
    requires forall i :: 0 <= i < |xs| ==> f(xs[i]) == []
    ensures FlatMap(xs, f) == []
  {
    if xs != [] {
      FlatMapEmpty(xs[..|xs| - 1], f);
    }
  }

  lemma FlatMapSkip<A, B>(xs: seq<A>, x: A, ys: seq<A>, f: A -> seq<B>)
    requires f(x) == []
    ensures FlatMap(xs + [x] + ys, f) == FlatMap(xs, f) + FlatMap(ys, f)
  {
    FlatMapAppend(xs + [x], ys, f);
    FlatMapStep(xs + [x], |xs|, f);
    assert (xs + [x])[..|xs| + 1] == xs + [x];
    assert (xs + [x])[..|xs|] == xs;
  }

  /** When every element contributes three items, element `k`'s items sit at `3 * k` onwards. */
  lemma {:induction false} FlatMapTriples<A, B>(xs: seq<A>, f: A -> seq<B>)
    requires forall i :: 0 <= i < |xs| ==> |f(xs[i])| == 3
    ensures |FlatMap(xs, f)| == 3 * |xs|
    ensures forall k, j :: 0 <= k < |xs| && 0 <= j < 3 ==> FlatMap(xs, f)[3 * k + j] == f(xs[k])[j]
  {
    if xs != [] {
      var n := |xs| - 1;
      var init := xs[..n];
      FlatMapTriples(init, f);
      forall k, j | 0 <= k < |xs| && 0 <= j < 3
        ensures FlatMap(xs, f)[3 * k + j] == f(xs[k])[j]
      {
        if k < n {
          assert xs[k] == init[k];
        }
      }
    }
  }

  /** Three appends of one element each append the three of them. */
  lemma AppendThree<T>(s: seq<T>, a: T, b: T, c: T)
    ensures s + [a] + [b] + [c] == s + [a, b, c]
  {
  }

  /** Where the parts of a three-part concatenation sit. */
  lemma ConcatThree<T>(a: seq<T>, b: seq<T>, c: seq<T>)
    ensures (a + b + c)[..|a|] == a
    ensures forall i :: 0 <= i < |b| ==> (a + b + c)[|a| + i] == b[i]
    ensures (a + b + c)[|a| + |b|..] == c
  {
  }

  /** Where Python's `xs[:stop]` ends on a sequence of length `len`: a negative stop counts from the end. */
  function SliceStop(len: nat, stop: int): (e: nat)
    ensures e <= len
  {
    if stop >= 0 then (if stop < len then stop else len)
    else if len + stop > 0 then len + stop else 0
  }

  /** How many elements satisfy `p`. */
  function Count<A>(xs: seq<A>, p: A -> bool): (r: nat)
    ensures r <= |xs|
  {
    if xs == [] then 0 else Count(xs[..|xs| - 1], p) + (if p(xs[|xs| - 1]) then 1 else 0)
  }

  lemma CountStep<A>(xs: seq<A>, k: nat, p: A -> bool)
    requires k < |xs|
    ensures Count(xs[..k + 1], p) == Count(xs[..k], p) + (if p(xs[k]) then 1 else 0)
  {
    assert xs[..k + 1][..k] == xs[..k];
  }

  /** Elements satisfying exactly one of `p` and `q` are counted once between them. */
  lemma {:induction false} CountComplement<A>(xs: seq<A>, p: A -> bool, q: A -> bool)
    requires forall i :: 0 <= i < |xs| ==> (p(xs[i]) <==> !q(xs[i]))
    ensures Count(xs, p) + Count(xs, q) == |xs|
  {
    if xs != [] {
      CountComplement(xs[..|xs| - 1], p, q);
    }
  }

  /** When `p` holds exactly where one of the disjoint `q` and `r` does, its count is theirs added. */
  lemma {:induction false} CountSplit<A>(xs: seq<A>, p: A -> bool, q: A -> bool, r: A -> bool)
    requires forall i :: 0 <= i < |xs| ==> (p(xs[i]) <==> q(xs[i]) || r(xs[i])) && !(q(xs[i]) && r(xs[i]))
    ensures Count(xs, p) == Count(xs, q) + Count(xs, r)
  {
    if xs != [] {
      CountSplit(xs[..|xs| - 1], p, q, r);
    }
  }

  /** When `f` gives `n` items exactly where `p` holds and none elsewhere, it gives `n * Count(xs, p)` items. */
  lemma {:induction false} FlatMapCount<A, B>(xs: seq<A>, f: A -> seq<B>, p: A -> bool, n: nat)
    requires forall i :: 0 <= i < |xs| ==> |f(xs[i])| == if p(xs[i]) then n else 0
    ensures |FlatMap(xs, f)| == n * Count(xs, p)
  {
    if xs != [] {
      var init := xs[..|xs| - 1];
      FlatMapCount(init, f, p, n);
      assert n * Count(xs, p) == n * Count(init, p) + (if p(xs[|xs| - 1]) then n else 0);
    }
  }

  /** The state after feeding `xs` to `f` one element at a time, starting from `st`. */
  function Fold<S, A>(f: (S, A) -> S, st: S, xs: seq<A>): S
  {
    if xs == [] then st else f(Fold(f, st, xs[..|xs| - 1]), xs[|xs| - 1])
  }

  lemma FoldStep<S, A>(f: (S, A) -> S, st: S, xs: seq<A>, k: nat)
    requires k < |xs|
    ensures Fold(f, st, xs[..k + 1]) == f(Fold(f, st, xs[..k]), xs[k])
  {
    assert xs[..k + 1][..k] == xs[..k];
  }

  /** Feeding one more element. */
  lemma FoldSnoc<S, A>(f: (S, A) -> S, st: S, xs: seq<A>, x: A)
    ensures Fold(f, st, xs + [x]) == f(Fold(f, st, xs), x)
  {
    assert (xs + [x])[..|xs|] == xs;
  }

  /** Feeding `xs + ys` is feeding `xs`, then `ys`. */
  lemma {:induction false} FoldAppend<S, A>(f: (S, A) -> S, st: S, xs: seq<A>, ys: seq<A>)
    ensures Fold(f, st, xs + ys) == Fold(f, Fold(f, st, xs), ys)
    decreases |ys|
  {
    if ys == [] {
      assert xs + ys == xs;
    } else {
      FoldAppend(f, st, xs, ys[..|ys| - 1]);
      assert (xs + ys)[..|xs + ys| - 1] == xs + ys[..|ys| - 1];
    }
  }

  /** Appending the elements of `ys` one at a time appends `ys`. */
  lemma AppendLast<T>(c: seq<T>, ys: seq<T>)
    requires ys != []
    ensures c + ys[..|ys| - 1] + [ys[|ys| - 1]] == c + ys
  {
  }

  /** The concatenation of a sequence of sequences. */
  function Flatten<T>(xss: seq<seq<T>>): seq<T>
  {
    if xss == [] then [] else Flatten(xss[..|xss| - 1]) + xss[|xss| - 1]
  }

  /**
   * The maximal runs of consecutive elements on which `key` agrees, in order:
   * an element joins the last run when it has that run's key, and opens a new
   * run otherwise.
   */
  function Runs<T>(xs: seq<T>, key: T -> bool): (r: seq<seq<T>>)
    ensures forall i :: 0 <= i < |r| ==> r[i] != []
    ensures |r| <= |xs|
    ensures xs != [] ==> r != []
  {
    if xs == [] then []
    else
      var rs := Runs(xs[..|xs| - 1], key);
      var x := xs[|xs| - 1];
      if rs != [] && key(rs[|rs| - 1][0]) == key(x) then rs[..|rs| - 1] + [rs[|rs| - 1] + [x]]
      else rs + [[x]]
  }

  /** How the runs grow by one element. */
  lemma RunsStep<T>(xs: seq<T>, k: nat, key: T -> bool)
    requires k < |xs|
    ensures var rs := Runs(xs[..k], key);
            Runs(xs[..k + 1], key) ==
              if rs != [] && key(rs[|rs| - 1][0]) == key(xs[k]) then rs[..|rs| - 1] + [rs[|rs| - 1] + [xs[k]]]
              else rs + [[xs[k]]]
  {
    assert xs[..k + 1][..k] == xs[..k];
  }

  /**
   * The same step seen as the runs already closed and the run still open: a
   * matching element extends the open run; any other closes it and opens a new one.
   */
  lemma RunsGrow<T>(xs: seq<T>, k: nat, key: T -> bool, closed: seq<seq<T>>, open: seq<T>)
    requires k < |xs|
    requires k > 0 ==> Runs(xs[..k], key) == closed + [open] && open != []
    ensures k == 0 ==> Runs(xs[..k + 1], key) == [] + [[xs[k]]]
    ensures k > 0 && key(open[0]) == key(xs[k]) ==> Runs(xs[..k + 1], key) == closed + [open + [xs[k]]]
    ensures k > 0 && key(open[0]) != key(xs[k]) ==> Runs(xs[..k + 1], key) == (closed + [open]) + [[xs[k]]]
  {
    RunsStep(xs, k, key);
    if k > 0 {
      var rs := closed + [open];
      assert rs[..|rs| - 1] == closed;
    }
  }

  /** Nothing is dropped, duplicated or reordered: the runs concatenate back to the input. */
  lemma {:induction false} RunsFlatten<T>(xs: seq<T>, key: T -> bool)
    ensures Flatten(Runs(xs, key)) == xs
  {
    if xs != [] {
      var init := xs[..|xs| - 1];
      var rs := Runs(init, key);
      var x := xs[|xs| - 1];
      RunsFlatten(init, key);
      if rs != [] && key(rs[|rs| - 1][0]) == key(x) {
        var rs' := rs[..|rs| - 1] + [rs[|rs| - 1] + [x]];
        assert rs'[..|rs'| - 1] == rs[..|rs| - 1];
        assert Flatten(rs) == Flatten(rs[..|rs| - 1]) + rs[|rs| - 1];
      } else {
        assert (rs + [[x]])[..|rs|] == rs;
      }
      assert xs == init + [x];
    }
  }

  /** Every element of a run has the key of the run's first element. */
  lemma {:induction false} RunsUniform<T>(xs: seq<T>, key: T -> bool)
    ensures forall i, j :: 0 <= i < |Runs(xs, key)| && 0 <= j < |Runs(xs, key)[i]| ==>
              key(Runs(xs, key)[i][j]) == key(Runs(xs, key)[i][0])
  {
    if xs != [] {
      RunsUniform(xs[..|xs| - 1], key);
    }
  }

  /** Neighbouring runs have different keys, so no run could be extended: the runs are maximal. */
  lemma {:induction false} RunsAlternate<T>(xs: seq<T>, key: T -> bool)
    ensures forall i :: 0 < i < |Runs(xs, key)| ==>
              key(Runs(xs, key)[i - 1][0]) != key(Runs(xs, key)[i][0])
  {
    if xs != [] {
      RunsAlternate(xs[..|xs| - 1], key);
    }
  }
}
