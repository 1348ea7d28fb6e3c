/**
 * The random generators, as oracles. A seeded generator is the sequence of its
 * outcomes; every `random.random()` or `random.randint(..)` call consumes
 * exactly one of them, so which draw a step reads is explicit.
 */
module Draws {

  /** One uniform outcome in [0, 1). */
  type Unit = u: real | 0.0 <= u < 1.0

  /** The outcomes of one seeded generator, in the order they are drawn. */
  type Stream = nat -> Unit

  /**
   * The draws of numpy's generator: at each position either the category
   * sequence of one `choisir_types_aliments` call or the uniform
   * outcome behind one `DataFrame.sample(n=1)`.
   */
  datatype NumpyStream = NumpyStream(categories: nat -> seq<string>, picks: Stream)

  /** A uniform choice of an index below `n`. */
  function Below(u: Unit, n: nat): (k: nat)
    requires n > 0
    ensures k < n
  {
    var x := u * n as real;
    ScaleBelow(u, n as real);
    x.Floor
  }

  lemma ScaleBelow(u: real, r: real)
    requires 0.0 <= u < 1.0 && r > 0.0
    ensures 0.0 <= u * r < r
  {
    assert r - u * r == (1.0 - u) * r;
  }

  /** Every index below `n` is chosen by some outcome. */
  lemma BelowReaches(k: nat, n: nat)
    requires k < n
    ensures Below(k as real / n as real, n) == k
  {
    var u: Unit := k as real / n as real;
    assert u * n as real == k as real;
  }

  /** `random.randint(lo, hi)`: an integer of [lo, hi], both ends included. */
  function RandInt(u: Unit, lo: int, hi: int): (r: int)
    requires lo <= hi
    ensures lo <= r <= hi
  {
    lo + Below(u, hi - lo + 1)
  }

  /** Every integer of [lo, hi] is produced by some outcome. */
  lemma RandIntReaches(lo: int, hi: int, v: int) returns (u: Unit)
    requires lo <= v <= hi
    ensures RandInt(u, lo, hi) == v
  {
    var n := hi - lo + 1;
    u := (v - lo) as real / n as real;
    BelowReaches(v - lo, n);
  }
}
