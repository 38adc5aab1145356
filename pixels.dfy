/** The pixel scaling shared by training, testing and the live query: a raw
    value in [0, 255] is mapped into [0.01, 1.0], away from the sigmoid's
    flat ends. */
module Pixels {
  import opened Linear

  /** raw / 255.0 * 0.99 + 0.01 */
  function Normalise(raw: real): (r: real)
    ensures 0.0 <= raw <= 255.0 ==> 0.01 <= r <= 1.0
    ensures raw == 0.0 ==> r == 0.01
    ensures raw == 255.0 ==> r == 1.0
  {
    raw / 255.0 * 0.99 + 0.01
  }

  /** Larger raw values give larger inputs. */
  lemma NormaliseMonotonic(a: real, b: real)
    requires a < b
    ensures Normalise(a) < Normalise(b)
  {
  }

  /** The scaling applied to every value. */
  function NormaliseAll(raw: seq<real>): (r: Vector)
    ensures |r| == |raw|
    ensures forall i :: 0 <= i < |raw| ==> r[i] == Normalise(raw[i])
  {
    seq(|raw|, i requires 0 <= i < |raw| => Normalise(raw[i]))
  }
}
