/**
 * `array[Math.floor(Math.random() * array.length)]`, the random choice the
 * widget and the relay both make: the random source is a draw `u` with
 * 0 <= u < 1 supplied by the caller.
 */
module Draw {

  /** A draw scaled by a positive size stays below that size. */
  lemma {:induction false} ScaledDrawBelow(u: real, n: nat)
    requires 0.0 <= u < 1.0 && n > 0
    ensures 0.0 <= u * n as real < n as real
  {
    if n > 1 {
      ScaledDrawBelow(u, n - 1);
      assert u * n as real == u * (n - 1) as real + u;
    }
  }

  /** `Math.floor(u * n)`: an index below `n` for every draw. */
  function DrawIndex(u: real, n: nat): (i: nat)
    requires 0.0 <= u < 1.0 && n > 0
    ensures i < n
  {
    ScaledDrawBelow(u, n);
    (u * n as real).Floor
  }

  /** Every index below `n` is drawn for some value of the random source. */
  lemma DrawReachesEvery(i: nat, n: nat)
    requires i < n
    ensures 0.0 <= i as real / n as real < 1.0
    ensures DrawIndex(i as real / n as real, n) == i
  {
    var u := i as real / n as real;
    assert u * n as real == i as real;
  }

  /** `table[Math.floor(Math.random() * table.length)]` for a non-empty table. */
  function Pick(table: seq<string>, u: real): (r: string)
    requires |table| > 0 && 0.0 <= u < 1.0
    ensures r in table
  {
    table[DrawIndex(u, |table|)]
  }

  /** Every entry of a table is drawn for some value of the random source. */
  lemma PickReachesEvery(table: seq<string>, i: nat)
    requires i < |table|
    ensures 0.0 <= i as real / |table| as real < 1.0
    ensures Pick(table, i as real / |table| as real) == table[i]
  {
    DrawReachesEvery(i, |table|);
  }
}
