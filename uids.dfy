/**
 * UID generation made explicit. The source calls pydicom's `generate_uid()`, a
 * global source of fresh identifiers; the model passes a generator instead.
 * `draw(n)` is the value of the n-th call and `next` the number of calls made so far.
 */
module Uids {

  datatype UidGen = UidGen(draw: nat -> string, next: nat) {

    /** The value the k-th call from now returns. */
    function At(k: nat): string {
      draw(next + k)
    }

    /** The generator after k more calls. */
    function Skip(k: nat): UidGen {
      UidGen(draw, next + k)
    }
  }

  /** A generator that never repeats a value, as `generate_uid()` intends. */
  ghost predicate Fresh(g: UidGen) {
    forall i: nat, j: nat | i != j :: g.draw(i) != g.draw(j)
  }

  /** After k calls, the j-th value from now is the one that was (k + j)-th. */
  lemma SkipAt(g: UidGen, k: nat, j: nat)
    ensures g.Skip(k).At(j) == g.At(k + j)
  {
  }

  /** Skipping a calls and then b calls is skipping a + b calls. */
  lemma SkipSkip(g: UidGen, a: nat, b: nat)
    ensures g.Skip(a).Skip(b) == g.Skip(a + b)
  {
  }

  /**
   * A fresh generator stays fresh after k calls, and nothing it draws from then
   * on repeats one of the k values drawn before.
   */
  lemma SkipFresh(g: UidGen, k: nat)
    requires Fresh(g)
    ensures Fresh(g.Skip(k))
    ensures forall i: nat, j: nat | i < k :: g.Skip(k).At(j) != g.At(i)
  {
  }
}
