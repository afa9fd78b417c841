/**
 * The exporter's de-duplication of autoscalers: of all eligible elements
 * that share a key (the target's kind, namespace and name), only the first
 * in input order is kept.
 */
module Selection {

  /** The keys of the elements of `xs`. */
  function KeysOf<T>(xs: seq<T>, key: T -> string): set<string>
  {
    set i | 0 <= i < |xs| :: key(xs[i])
  }

  /** The keys of the eligible elements of `xs`. */
  function EligibleKeys<T>(xs: seq<T>, eligible: T -> bool, key: T -> string): set<string>
  {
    set i | 0 <= i < |xs| && eligible(xs[i]) :: key(xs[i])
  }

  /** The selection as the exporter's loop performs it: an eligible element whose key was not yet seen is kept. */
  function FirstPerKey<T>(xs: seq<T>, eligible: T -> bool, key: T -> string): (kept: seq<T>)
    ensures |kept| <= |xs|
  {
    if |xs| == 0 then []
    else
      var prev := FirstPerKey(xs[..|xs| - 1], eligible, key);
      var x := xs[|xs| - 1];
      if eligible(x) && key(x) !in KeysOf(prev, key) then prev + [x] else prev
  }

  /** `xs[i]` is eligible and no earlier eligible element has its key. */
  predicate IsFirstOfKey<T>(xs: seq<T>, i: nat, eligible: T -> bool, key: T -> string)
    requires i < |xs|
  {
    eligible(xs[i]) && forall j :: 0 <= j < i && eligible(xs[j]) ==> key(xs[j]) != key(xs[i])
  }

  /** The reference selection: the elements among the first `n` that are first of their key, in order. */
  function Firsts<T>(xs: seq<T>, n: nat, eligible: T -> bool, key: T -> string): seq<T>
    requires n <= |xs|
  {
    if n == 0 then []
    else Firsts(xs, n - 1, eligible, key) + (if IsFirstOfKey(xs, n - 1, eligible, key) then [xs[n - 1]] else [])
  }

  lemma EligibleKeysStep<T>(xs: seq<T>, eligible: T -> bool, key: T -> string)
    requires |xs| > 0
    ensures var init := xs[..|xs| - 1]; var x := xs[|xs| - 1];
      EligibleKeys(xs, eligible, key)
      == EligibleKeys(init, eligible, key) + (if eligible(x) then {key(x)} else {})
  {
    var init := xs[..|xs| - 1];
    var x := xs[|xs| - 1];
    forall k | k in EligibleKeys(xs, eligible, key)
      ensures k in EligibleKeys(init, eligible, key) + (if eligible(x) then {key(x)} else {})
    {
      var i :| 0 <= i < |xs| && eligible(xs[i]) && key(xs[i]) == k;
      if i < |xs| - 1 {
        assert init[i] == xs[i];
      }
    }
    forall k | k in EligibleKeys(init, eligible, key)
      ensures k in EligibleKeys(xs, eligible, key)
    {
      var i :| 0 <= i < |init| && eligible(init[i]) && key(init[i]) == k;
      assert xs[i] == init[i];
    }
    if eligible(x) {
      assert key(xs[|xs| - 1]) in EligibleKeys(xs, eligible, key);
    }
  }

  lemma KeysOfAppend<T>(xs: seq<T>, x: T, key: T -> string)
    ensures KeysOf(xs + [x], key) == KeysOf(xs, key) + {key(x)}
  {
    var ys := xs + [x];
    forall k | k in KeysOf(ys, key) ensures k in KeysOf(xs, key) + {key(x)}
    {
      var i :| 0 <= i < |ys| && key(ys[i]) == k;
      if i < |xs| {
        assert ys[i] == xs[i];
      }
    }
    forall k | k in KeysOf(xs, key) ensures k in KeysOf(ys, key)
    {
      var i :| 0 <= i < |xs| && key(xs[i]) == k;
      assert ys[i] == xs[i];
    }
    assert ys[|xs|] == x;
  }

  /** Completeness: the kept keys are exactly the keys of the eligible elements. */
  lemma {:induction false} FirstPerKeyKeys<T>(xs: seq<T>, eligible: T -> bool, key: T -> string)
    ensures KeysOf(FirstPerKey(xs, eligible, key), key) == EligibleKeys(xs, eligible, key)
    decreases |xs|
  {
    if |xs| > 0 {
      var init := xs[..|xs| - 1];
      var x := xs[|xs| - 1];
      FirstPerKeyKeys(init, eligible, key);
      EligibleKeysStep(xs, eligible, key);
      var prev := FirstPerKey(init, eligible, key);
      if eligible(x) && key(x) !in KeysOf(prev, key) {
        KeysOfAppend(prev, x, key);
      }
    }
  }

  /** The loop's selection is the reference one: the first eligible element of every key, in input order. */
  lemma {:induction false} FirstPerKeyIsFirsts<T>(xs: seq<T>, eligible: T -> bool, key: T -> string)
    ensures FirstPerKey(xs, eligible, key) == Firsts(xs, |xs|, eligible, key)
    decreases |xs|
  {
    if |xs| > 0 {
      var n := |xs| - 1;
      var init := xs[..n];
      FirstPerKeyIsFirsts(init, eligible, key);
      FirstsPrefix(xs, n, eligible, key);
      FirstPerKeyKeys(init, eligible, key);
      var x := xs[n];
      if eligible(x) {
        if key(x) in EligibleKeys(init, eligible, key) {
          var j :| 0 <= j < n && eligible(init[j]) && key(init[j]) == key(x);
          assert xs[j] == init[j];
          assert !IsFirstOfKey(xs, n, eligible, key);
        } else {
          forall j | 0 <= j < n && eligible(xs[j]) ensures key(xs[j]) != key(x)
          {
            assert init[j] == xs[j];
          }
          assert IsFirstOfKey(xs, n, eligible, key);
        }
      }
    }
  }

  /** The reference selection over a prefix depends only on the prefix. */
  lemma {:induction false} FirstsPrefix<T>(xs: seq<T>, n: nat, eligible: T -> bool, key: T -> string)
    requires n <= |xs|
    ensures Firsts(xs, n, eligible, key) == Firsts(xs[..n], n, eligible, key)
    decreases n
  {
    if n > 0 {
      FirstsPrefix(xs, n - 1, eligible, key);
      FirstsPrefix(xs[..n], n - 1, eligible, key);
      assert xs[..n][..n - 1] == xs[..n - 1];
      forall j | 0 <= j < n ensures xs[..n][j] == xs[j] { }
      assert IsFirstOfKey(xs, n - 1, eligible, key) == IsFirstOfKey(xs[..n], n - 1, eligible, key);
    }
  }

  /** No two kept elements share a key, and every kept element is eligible. */
  lemma {:induction false} FirstPerKeyDistinct<T>(xs: seq<T>, eligible: T -> bool, key: T -> string)
    ensures forall i, j :: 0 <= i < j < |FirstPerKey(xs, eligible, key)| ==>
      key(FirstPerKey(xs, eligible, key)[i]) != key(FirstPerKey(xs, eligible, key)[j])
    ensures forall i :: 0 <= i < |FirstPerKey(xs, eligible, key)| ==> eligible(FirstPerKey(xs, eligible, key)[i])
    decreases |xs|
  {
    if |xs| > 0 {
      var init := xs[..|xs| - 1];
      var x := xs[|xs| - 1];
      FirstPerKeyDistinct(init, eligible, key);
      var prev := FirstPerKey(init, eligible, key);
      if eligible(x) && key(x) !in KeysOf(prev, key) {
        var r := prev + [x];
        forall i, j | 0 <= i < j < |r| ensures key(r[i]) != key(r[j])
        {
          assert r[i] == prev[i];
          if j == |prev| {
            assert key(prev[i]) in KeysOf(prev, key);
          } else {
            assert r[j] == prev[j];
          }
        }
        forall i | 0 <= i < |r| ensures eligible(r[i])
        {
          if i < |prev| {
            assert r[i] == prev[i];
          } else {
            assert r[i] == xs[|xs| - 1];
          }
        }
      }
    }
  }

  /** A property every input element has, every kept element has. */
  lemma {:induction false} FirstPerKeyKeeps<T>(xs: seq<T>, eligible: T -> bool, key: T -> string, p: T -> bool)
    requires forall i :: 0 <= i < |xs| ==> p(xs[i])
    ensures forall i :: 0 <= i < |FirstPerKey(xs, eligible, key)| ==> p(FirstPerKey(xs, eligible, key)[i])
    decreases |xs|
  {
    if |xs| > 0 {
      var init := xs[..|xs| - 1];
      FirstPerKeyKeeps(init, eligible, key, p);
    }
  }
}
