/**
 * The two pure helpers of src/utils.py: `split_list_by_n`, which yields the
 * consecutive slices `xs[i:i+n]` for `i` in `range(0, len(xs), n)`, and the
 * file-name rule at the start of `load_abi`.
 */
module Utils {
  import opened PyText

  /**
   * `split_list_by_n(xs, n)`: consecutive chunks of `n` elements, the last
   * one possibly shorter. `n > 0` because `range` rejects a zero step.
   */
  function SplitByN<T>(xs: seq<T>, n: nat): seq<seq<T>>
    requires n > 0
    decreases |xs|
  {
    if xs == [] then []
    else
      var k := Min(n, |xs|);
      [xs[..k]] + SplitByN(xs[k..], n)
  }

  function Flatten<T>(xss: seq<seq<T>>): seq<T> {
    if xss == [] then [] else xss[0] + Flatten(xss[1..])
  }

  lemma {:induction false} FlattenAppend<T>(a: seq<seq<T>>, b: seq<seq<T>>)
    ensures Flatten(a + b) == Flatten(a) + Flatten(b)
  {
    if a == [] {
      assert a + b == b;
    } else {
      assert (a + b)[1..] == a[1..] + b;
      FlattenAppend(a[1..], b);
    }
  }

  /** Concatenating the chunks gives the list back. */
  lemma {:induction false} SplitFlatten<T>(xs: seq<T>, n: nat)
    requires n > 0
    ensures Flatten(SplitByN(xs, n)) == xs
    decreases |xs|
  {
    if xs != [] {
      var k := Min(n, |xs|);
      SplitFlatten(xs[k..], n);
      assert xs == xs[..k] + xs[k..];
    }
  }

  /** Every chunk is non-empty and at most `n` long; all but the last are exactly `n` long. */
  lemma {:induction false} SplitChunkSizes<T>(xs: seq<T>, n: nat)
    requires n > 0
    ensures forall k :: 0 <= k < |SplitByN(xs, n)| ==>
              0 < |SplitByN(xs, n)[k]| <= n &&
              (k < |SplitByN(xs, n)| - 1 ==> |SplitByN(xs, n)[k]| == n)
    decreases |xs|
  {
    if xs != [] {
      var k := Min(n, |xs|);
      SplitChunkSizes(xs[k..], n);
      if |xs| <= n {
        assert xs[k..] == [];
      }
    }
  }

  /** There are `ceil(|xs| / n)` chunks, stated without division; an empty list gives none. */
  lemma {:induction false} SplitCount<T>(xs: seq<T>, n: nat)
    requires n > 0
    ensures |SplitByN(xs, n)| == 0 <==> xs == []
    ensures |xs| <= |SplitByN(xs, n)| * n < |xs| + n
    decreases |xs|
  {
    if xs != [] {
      var k := Min(n, |xs|);
      SplitCount(xs[k..], n);
      var m := |SplitByN(xs[k..], n)|;
      assert (m + 1) * n == m * n + n;
      if |xs| <= n {
        assert xs[k..] == [];
      }
    }
  }

  lemma MulStep(k: int, n: int)
    ensures k * n == (k - 1) * n + n
  {
  }

  /** Chunk `k` is the slice `xs[k*n : k*n+n]`: the split is purely positional. */
  lemma {:induction false} SplitChunkAt<T>(xs: seq<T>, n: nat, k: nat)
    requires n > 0 && k < |SplitByN(xs, n)|
    ensures k * n < |xs|
    ensures SplitByN(xs, n)[k] == xs[k * n .. Min(k * n + n, |xs|)]
    decreases |xs|
  {
    var first := Min(n, |xs|);
    var rest := xs[first..];
    assert SplitByN(xs, n) == [xs[..first]] + SplitByN(rest, n);
    if k > 0 {
      assert |rest| > 0 && first == n;
      SplitChunkAt(rest, n, k - 1);
      var j := (k - 1) * n;
      MulStep(k, n);
      assert rest[j .. Min(j + n, |rest|)] == xs[j + n .. Min(j + n + n, |xs|)];
    }
  }

  /** The `.json` suffix rule of `load_abi`. */
  function AbiFileName(name: string): (r: string)
    ensures EndsWith(r, ".json")
    ensures r == name || r == name + ".json"
    ensures r == name <==> EndsWith(name, ".json")
  {
    if EndsWith(name, ".json") then name else name + ".json"
  }

  lemma AbiFileNameIdempotent(name: string)
    ensures AbiFileName(AbiFileName(name)) == AbiFileName(name)
  {
  }
}
