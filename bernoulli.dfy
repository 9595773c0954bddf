/** The Bernoulli (exponential-fitting) weights of the Scharfetter-Gummel flux, one pair
    per cell face, from the potential difference dV across that face.

    The exponential is not computed: it is a function parameter `exp`, of which only
    the sign facts of the real exponential are assumed (ExpLike). */
module Bernoulli {

  /** The singularity guard of Bernoulli_n_X / Bernoulli_n_Z: 1e-13. */
  const Threshold: real := 0.0000000000001

  function Abs(x: real): real
  {
    if x < 0.0 then -x else x
  }

  /** What the model assumes of exp: exp(0) = 1, it exceeds 1 on the positive axis and
      lies in (0, 1) on the negative axis; so it is positive everywhere and exceeds 1
      exactly for x > 0. */
  ghost predicate ExpLike(exp: real -> real)
  {
    && exp(0.0) == 1.0
    && (forall x :: x > 0.0 ==> exp(x) > 1.0)
    && (forall x :: x < 0.0 ==> 0.0 < exp(x) < 1.0)
  }

  /** The weight pair of one face: pos multiplies the density on the face's own cell,
      neg the density on the lower neighbour. */
  datatype Weights = Weights(pos: real, neg: real)

  /** Bpos = dV / (exp(dV) - 1) and Bneg = Bpos * exp(dV), except that both are 1 when
      |dV| < 1e-13. Both weights are positive, and away from the guard Bneg - Bpos = dV,
      the Bernoulli identity B(-x) - B(x) = x. */
  function FaceWeights(dV: real, exp: real -> real): (w: Weights)
    requires ExpLike(exp)
    ensures w.pos > 0.0 && w.neg > 0.0
    ensures Abs(dV) < Threshold ==> w == Weights(1.0, 1.0)
    ensures Abs(dV) >= Threshold ==> w.neg == w.pos * exp(dV) && w.neg - w.pos == dV
  {
    if Abs(dV) < Threshold then
      Weights(1.0, 1.0)
    else
      var e := exp(dV);
      assert e != 1.0 && e > 0.0;
      var bpos := dV / (e - 1.0);
      assert bpos > 0.0 by {
        if dV > 0.0 { assert e - 1.0 > 0.0; } else { assert e - 1.0 < 0.0; }
      }
      assert bpos * e - bpos == dV by {
        assert bpos * e - bpos == bpos * (e - 1.0);
      }
      Weights(bpos, bpos * e)
  }

  /** Along a flat potential the weights are exactly 1 (the removable singularity). */
  lemma FlatPotentialUnitWeights(v: real, exp: real -> real)
    requires ExpLike(exp)
    ensures FaceWeights(v - v, exp) == Weights(1.0, 1.0)
  {
  }

  /** The flux a face carries, in units of its coefficient and mobility: the density of
      the face's cell times Bpos minus the lower neighbour's density times Bneg. */
  function FaceFlux(here: real, lower: real, w: Weights): real
  {
    here * w.pos - lower * w.neg
  }

  /** Thermal equilibrium carries no current: when the densities across a face stand in
      the Boltzmann ratio exp(dV), the Scharfetter-Gummel flux vanishes; inside the guard
      (unit weights) it vanishes for equal densities. */
  lemma EquilibriumFluxVanishes(dV: real, lower: real, exp: real -> real)
    requires ExpLike(exp)
    ensures Abs(dV) >= Threshold ==> FaceFlux(lower * exp(dV), lower, FaceWeights(dV, exp)) == 0.0
    ensures Abs(dV) < Threshold ==> FaceFlux(lower, lower, FaceWeights(dV, exp)) == 0.0
  {
    var w := FaceWeights(dV, exp);
    if Abs(dV) >= Threshold {
      calc {
        FaceFlux(lower * exp(dV), lower, w);
        lower * exp(dV) * w.pos - lower * (w.pos * exp(dV));
        0.0;
      }
    }
  }
}
