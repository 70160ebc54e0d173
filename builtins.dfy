/** Python built-ins and idioms the other modules share: `int()` on a float,
    the positions a filtering comprehension keeps, and a dictionary of counts
    filled with `d[key] = d.get(key, 0) + 1`. */
module Builtins {

  // ---------------------------------------------------------------- int()

  /** `int(x)` truncates toward zero. */
  function Truncate(x: real): (n: int)
    ensures x >= 0.0 ==> n as real <= x < n as real + 1.0
    ensures x < 0.0 ==> n as real - 1.0 < x <= n as real
  {
    if x >= 0.0 then x.Floor else -((-x).Floor)
  }


  // ---------------------------------------------------------------- positions

  /** The input positions among the first k whose tag is `want`, in order. */
  function Positions(tags: seq<bool>, want: bool, k: nat): seq<nat>
    requires k <= |tags|
  {
    if k == 0 then []
    else if tags[k - 1] == want then Positions(tags, want, k - 1) + [k - 1]
    else Positions(tags, want, k - 1)
  }

  /** A position is listed exactly when its tag is `want`. */
  lemma {:induction false} PositionsMembers(tags: seq<bool>, want: bool, k: nat)
    requires k <= |tags|
    ensures forall i :: i in Positions(tags, want, k) <==> 0 <= i < k && tags[i] == want
  {
    if k > 0 {
      PositionsMembers(tags, want, k - 1);
    }
  }

  /** Positions are listed in input order. */
  lemma {:induction false} PositionsIncreasing(tags: seq<bool>, want: bool, k: nat)
    requires k <= |tags|
    ensures forall a, b | 0 <= a < b < |Positions(tags, want, k)| ::
              Positions(tags, want, k)[a] < Positions(tags, want, k)[b]
  {
    if k > 0 {
      PositionsIncreasing(tags, want, k - 1);
      PositionsMembers(tags, want, k - 1);
      var prev := Positions(tags, want, k - 1);
      assert forall a | 0 <= a < |prev| :: prev[a] in prev;
    }
  }

  /** Each position has one tag, so the two lists together have k entries. */
  lemma {:induction false} PositionsCount(tags: seq<bool>, k: nat)
    requires k <= |tags|
    ensures |Positions(tags, true, k)| + |Positions(tags, false, k)| == k
  {
    if k > 0 {
      PositionsCount(tags, k - 1);
    }
  }

  // ---------------------------------------------------------------- counting

  /** How often c occurs among the first k keys. */
  function Occurrences(keys: seq<string>, c: string, k: nat): nat
    requires k <= |keys|
  {
    if k == 0 then 0
    else Occurrences(keys, c, k - 1) + (if keys[k - 1] == c then 1 else 0)
  }

  /** The distinct keys among the first k, in order of first appearance: the
      key order of a dictionary filled from them. */
  function Distinct(keys: seq<string>, k: nat): seq<string>
    requires k <= |keys|
  {
    if k == 0 then []
    else
      var d := Distinct(keys, k - 1);
      if keys[k - 1] in d then d else d + [keys[k - 1]]
  }

  /** `d.get(c, 0)`. */
  function Get(m: map<string, nat>, c: string): nat {
    if c in m then m[c] else 0
  }

  /** The dictionary after `d[key] = d.get(key, 0) + 1` for each of the first k keys. */
  function Counts(keys: seq<string>, k: nat): map<string, nat>
    requires k <= |keys|
  {
    if k == 0 then map[]
    else
      var m := Counts(keys, k - 1);
      m[keys[k - 1] := Get(m, keys[k - 1]) + 1]
  }

  /** The sum of the values of m at the keys ks. */
  function SumOver(ks: seq<string>, m: map<string, nat>): nat {
    if |ks| == 0 then 0 else SumOver(ks[..|ks| - 1], m) + Get(m, ks[|ks| - 1])
  }

  predicate NoDuplicates(ks: seq<string>) {
    forall a, b | 0 <= a < b < |ks| :: ks[a] != ks[b]
  }

  /** A key is listed exactly when it occurs, and reading more keys only
      appends to the list. */
  lemma {:induction false} DistinctFacts(keys: seq<string>, k: nat)
    requires k <= |keys|
    ensures forall c :: c in Distinct(keys, k) <==> Occurrences(keys, c, k) > 0
    ensures forall i | 0 <= i < k :: keys[i] in Distinct(keys, k)
    ensures forall j | 0 <= j <= k :: Distinct(keys, j) <= Distinct(keys, k)
  {
    if k > 0 {
      DistinctFacts(keys, k - 1);
    }
  }

  /** Each value of the counts dictionary is the number of occurrences of its
      key (and an absent key counts zero). */
  lemma {:induction false} CountsFacts(keys: seq<string>, k: nat)
    requires k <= |keys|
    ensures forall c :: Get(Counts(keys, k), c) == Occurrences(keys, c, k)
  {
    if k > 0 {
      CountsFacts(keys, k - 1);
    }
  }

  /** The values of the counts dictionary add up to the number of keys read. */
  lemma {:induction false} CountsTotal(keys: seq<string>, k: nat)
    requires k <= |keys|
    ensures SumOver(Distinct(keys, k), Counts(keys, k)) == k
  {
    if k > 0 {
      var d, m, c := Distinct(keys, k - 1), Counts(keys, k - 1), keys[k - 1];
      CountsTotal(keys, k - 1);
      assert Counts(keys, k) == m[c := Get(m, c) + 1];
      if c in d {
        assert Distinct(keys, k) == d;
        DistinctNoDuplicates(keys, k - 1);
        SumOverBump(d, m, c);
      } else {
        CountsKeys(keys, k - 1);
        assert Get(m, c) == 0;
        assert Distinct(keys, k) == d + [c];
        SumOverOther(d, m, c, 1);
        assert (d + [c])[..|d|] == d;
      }
    }
  }

  /** Each distinct key is listed once. */
  lemma {:induction false} DistinctNoDuplicates(keys: seq<string>, k: nat)
    requires k <= |keys|
    ensures NoDuplicates(Distinct(keys, k))
  {
    if k > 0 {
      DistinctNoDuplicates(keys, k - 1);
    }
  }

  /** The counts dictionary has the distinct keys as its keys. */
  lemma {:induction false} CountsKeys(keys: seq<string>, k: nat)
    requires k <= |keys|
    ensures forall c :: c in Counts(keys, k) <==> c in Distinct(keys, k)
  {
    if k > 0 {
      CountsKeys(keys, k - 1);
    }
  }

  /** Adding one at a key listed once adds one to the sum. */
  lemma {:induction false} SumOverBump(ks: seq<string>, m: map<string, nat>, c: string)
    requires c in ks && NoDuplicates(ks)
    ensures SumOver(ks, m[c := Get(m, c) + 1]) == SumOver(ks, m) + 1
  {
    var init := ks[..|ks| - 1];
    assert NoDuplicates(init);
    if ks[|ks| - 1] == c {
      assert c !in init;
      SumOverOther(init, m, c, Get(m, c) + 1);
    } else {
      assert c in init by {
        var a :| 0 <= a < |ks| && ks[a] == c;
        assert init[a] == c;
      }
      SumOverBump(init, m, c);
    }
  }

  /** Changing the value at an unlisted key leaves the sum alone. */
  lemma {:induction false} SumOverOther(ks: seq<string>, m: map<string, nat>, c: string, v: nat)
    requires c !in ks
    ensures SumOver(ks, m[c := v]) == SumOver(ks, m)
  {
    if |ks| > 0 {
      SumOverOther(ks[..|ks| - 1], m, c, v);
    }
  }
}
