/** Small shared vocabulary: error results and sums of reals. */
module Common {

  /** The ways an operation of the simulator can fail instead of producing a value. */
  datatype Error =
    | UnsupportedDistribution   // a distribution type name the sampler does not know
    | MissingDistribution       // no distribution descriptor where one is indexed
    | MissingRate               // a rate that is absent: no entry, or a descriptor without one
    | NoArrivalRate             // the arrival-rate list is empty
    | DivisionByZero            // a divisor that is zero (zero elapsed time, rho == 1, ...)

  datatype Result<T> = Ok(value: T) | Err(error: Error)

  datatype Option<T> = None | Some(value: T)

  /** The sum of a sequence of reals, first element first. */
  function Sum(s: seq<real>): real
  {
    if s == [] then 0.0 else s[0] + Sum(s[1..])
  }

  lemma {:induction false} SumAppend(s: seq<real>, t: seq<real>)
    ensures Sum(s + t) == Sum(s) + Sum(t)
  {
    if s == [] {
      assert s + t == t;
    } else {
      assert (s + t)[1..] == s[1..] + t;
      SumAppend(s[1..], t);
    }
  }

  lemma {:induction false} SumNonNegative(s: seq<real>)
    requires forall i :: 0 <= i < |s| ==> s[i] >= 0.0
    ensures Sum(s) >= 0.0
  {
    if s != [] {
      SumNonNegative(s[1..]);
    }
  }

  /** Two sequences that agree pointwise up to a common divisor have proportional sums. */
  lemma {:induction false} SumDivided(s: seq<real>, d: seq<real>, t: real)
    requires t != 0.0 && |d| == |s|
    requires forall i :: 0 <= i < |s| ==> d[i] == s[i] / t
    ensures Sum(d) == Sum(s) / t
  {
    if s != [] {
      SumDivided(s[1..], d[1..], t);
    }
  }
}
