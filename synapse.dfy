/**
 * A synapse (Connection) and the clamp helper. Both Go packages of the
 * kernel (metal/ and go/sim/metal/) declare an identical Connection struct
 * and an identical clamp function; they are defined once here.
 */
module Synapse {

  /** One synapse: its weight and the ticks of its last pre- and
      post-synaptic spike involvement. */
  datatype Connection = Connection(weight: real, lastPreSpike: int, lastPostSpike: int)

  /** clamp(x, min, max): first the lower bound is tested, then the upper. */
  function Clamp(x: real, lo: real, hi: real): (r: real)
    ensures lo <= hi ==> lo <= r <= hi
    ensures lo <= x <= hi ==> r == x
  {
    if x < lo then lo
    else if x > hi then hi
    else x
  }

  /** Clamping into a non-empty interval is idempotent. */
  lemma ClampIdempotent(x: real, lo: real, hi: real)
    requires lo <= hi
    ensures Clamp(Clamp(x, lo, hi), lo, hi) == Clamp(x, lo, hi)
  {
  }

  /** Clamping is monotone: a value that was raised (lowered) relative to an
      in-range weight is never clamped below (above) that weight. */
  lemma ClampMonotone(x: real, y: real, lo: real, hi: real)
    requires x <= y && lo <= hi
    ensures Clamp(x, lo, hi) <= Clamp(y, lo, hi)
  {
  }

  /** The product of two non-negative reals is non-negative. */
  lemma ProductNonNegative(a: real, b: real)
    requires a >= 0.0 && b >= 0.0
    ensures a * b >= 0.0
  {
  }

  /** Every weight of the sequence lies in [lo, hi]. */
  predicate WeightsWithin(cs: seq<Connection>, lo: real, hi: real)
  {
    forall i :: 0 <= i < |cs| ==> lo <= cs[i].weight <= hi
  }

  /** The weights of a sequence of connections, in order. */
  function Weights(cs: seq<Connection>): (ws: seq<real>)
    ensures |ws| == |cs| && forall i :: 0 <= i < |cs| ==> ws[i] == cs[i].weight
  {
    seq(|cs|, i requires 0 <= i < |cs| => cs[i].weight)
  }

  /** A random draw of rand.Float64: a real in [0, 1). */
  predicate IsDraw(u: real)
  {
    0.0 <= u < 1.0
  }

  predicate AllDraws(us: seq<real>)
  {
    forall i :: 0 <= i < |us| ==> IsDraw(us[i])
  }
}
