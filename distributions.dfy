/**
 * Distribution descriptors and the set-up of a presampled run: the sampler's
 * dispatch on the distribution's type name, and the construction of the
 * configuration a presampled simulator starts from. The numbers a sampler
 * draws are inputs here.
 */
module Distributions {
  import opened Common
  import opened Kernel

  /** The distributions the sampler supports. */
  datatype Kind = Uniform | Exponential | Erlang | HyperExponential | HypoExponential

  function KindName(k: Kind): string
  {
    match k
    case Uniform => "uniform"
    case Exponential => "exponential"
    case Erlang => "erlang"
    case HyperExponential => "hyperexponential"
    case HypoExponential => "hypoexponential"
  }

  /** The type name of a descriptor; any other name is unsupported. */
  function ParseKind(name: string): (r: Result<Kind>)
    ensures r.Ok? ==> KindName(r.value) == name
    ensures r.Err? ==> r.error == UnsupportedDistribution
  {
    if name == "uniform" then Ok(Uniform)
    else if name == "exponential" then Ok(Exponential)
    else if name == "erlang" then Ok(Erlang)
    else if name == "hyperexponential" then Ok(HyperExponential)
    else if name == "hypoexponential" then Ok(HypoExponential)
    else Err(UnsupportedDistribution)
  }

  /** Every supported kind is recognised by its own name, so the dispatch accepts exactly the five names. */
  lemma ParseKindName(k: Kind)
    ensures ParseKind(KindName(k)) == Ok(k)
  {
  }

  lemma ParseKindAccepts(name: string)
    ensures ParseKind(name).Ok? <==> exists k: Kind :: KindName(k) == name
  {
    if exists k: Kind :: KindName(k) == name {
      var k: Kind :| KindName(k) == name;
      ParseKindName(k);
    }
  }

  /**
   * A distribution descriptor: its type name and, when its parameters carry
   * one, its rate.
   */
  datatype Distribution = Distribution(typeName: string, rate: Option<real>)

  /**
   * The sampler: numSamples times of the descriptor's distribution. samples
   * stands for what the numerical generator draws; an unsupported type name
   * fails before anything is drawn.
   */
  function GenerateTimes(numSamples: nat, d: Distribution, samples: seq<real>): (r: Result<seq<real>>)
    requires |samples| == numSamples
    ensures r.Ok? <==> ParseKind(d.typeName).Ok?
    ensures r.Ok? ==> r.value == samples && |r.value| == numSamples
    ensures r.Err? ==> r.error == UnsupportedDistribution
  {
    match ParseKind(d.typeName)
    case Err(e) => Err(e)
    case Ok(_) => Ok(samples)
  }

  /** What a presampled simulator starts from besides its run state. */
  datatype Setup = Setup(
    cfg: Config,
    arrivalRates: seq<Option<real>>,
    serviceRates: seq<Option<real>>,
    jacksonSystemThroughput: Option<real>)

  function Rates(ds: seq<Distribution>): (r: seq<Option<real>>)
    ensures |r| == |ds| && forall i :: 0 <= i < |ds| ==> r[i] == ds[i].rate
  {
    seq(|ds|, i requires 0 <= i < |ds| => ds[i].rate)
  }

  /** The present rates as numbers, an absent one counting as zero. */
  function RateValues(rates: seq<Option<real>>): seq<real>
  {
    if rates == [] then [] else [if rates[0].Some? then rates[0].value else 0.0] + RateValues(rates[1..])
  }

  /** The sum of the rates, first element first, when every one is present. */
  function RateSum(rates: seq<Option<real>>): (r: Option<real>)
    ensures r.Some? <==> forall i :: 0 <= i < |rates| ==> rates[i].Some?
    ensures r.Some? ==> r.value == Sum(RateValues(rates))
  {
    if rates == [] then Some(0.0)
    else if rates[0].None? then None
    else
      match RateSum(rates[1..])
      case None => None
      case Some(t) => Some(rates[0].value + t)
  }

  /**
   * The analytic system throughput: the sum of the arrival rates as numpy
   * sums them. A one-element list sums to its only element, an absent rate
   * included; over two or more elements an absent rate makes the sum fail.
   * The empty list sums to zero.
   */
  function SystemThroughput(rates: seq<Option<real>>): (r: Result<Option<real>>)
    ensures r.Ok? <==> |rates| == 1 || forall i :: 0 <= i < |rates| ==> rates[i].Some?
    ensures r.Err? ==> r.error == MissingRate
    ensures r.Ok? && |rates| == 1 ==> r.value == rates[0]
    ensures r.Ok? && |rates| != 1 ==> r.value == Some(Sum(RateValues(rates)))
  {
    if |rates| == 1 then Ok(rates[0])
    else
      match RateSum(rates)
      case None => Err(MissingRate)
      case Some(t) => Ok(Some(t))
  }

  /** Index of the first queue among 0 .. n - 1 whose descriptor has an unsupported type, if any. */
  function FirstUnsupported(ds: seq<Distribution>, n: nat): (r: Option<nat>)
    requires n <= |ds|
    ensures r.None? <==> forall i :: 0 <= i < n ==> ParseKind(ds[i].typeName).Ok?
    ensures r.Some? ==> r.value < n && ParseKind(ds[r.value].typeName).Err? &&
                        forall i :: 0 <= i < r.value ==> ParseKind(ds[i].typeName).Ok?
  {
    if n == 0 then None
    else
      match FirstUnsupported(ds, n - 1)
      case Some(i) => Some(i)
      case None => if ParseKind(ds[n - 1].typeName).Err? then Some(n - 1) else None
  }

  /**
   * The presampled simulator's construction. With jackson set, the rates are
   * those of the descriptors and their sum is the analytic system throughput;
   * otherwise there are no rates and the sum is zero. Then the inter-arrival
   * times of the first arrival descriptor and the service times of queue i's
   * descriptor are drawn, in that order: a missing descriptor or an
   * unsupported type name fails, and so does, after the draws, a rate sum
   * over two or more arrival descriptors one of which has no rate.
   */
  function SetUp(arrivalDists: seq<Distribution>, serviceDists: seq<Distribution>, numJobs: nat,
                 jackson: bool, numQueues: nat,
                 arrivalSamples: seq<real>, serviceSamples: seq<seq<real>>): (r: Result<Setup>)
    requires |arrivalSamples| == numJobs && |serviceSamples| == numQueues
    requires forall q :: 0 <= q < numQueues ==> |serviceSamples[q]| == numJobs
  {
    var arrivalRates := if jackson then Rates(arrivalDists) else [];
    var serviceRates := if jackson then Rates(serviceDists) else [];
    if arrivalDists == [] then Err(MissingDistribution)
    else if GenerateTimes(numJobs, arrivalDists[0], arrivalSamples).Err? then Err(UnsupportedDistribution)
    else if |serviceDists| < numQueues then
      (if FirstUnsupported(serviceDists, |serviceDists|).Some? then Err(UnsupportedDistribution)
       else Err(MissingDistribution))
    else if FirstUnsupported(serviceDists, numQueues).Some? then Err(UnsupportedDistribution)
    else if SystemThroughput(arrivalRates).Err? then Err(MissingRate)
    else
      Ok(Setup(Config(numJobs, numQueues, Presampled(arrivalSamples, serviceSamples)),
               arrivalRates, serviceRates, SystemThroughput(arrivalRates).value))
  }

  /**
   * Set-up succeeds exactly when there is an arrival descriptor, there is one
   * service descriptor per queue, all those have a supported type and, with
   * jackson set and two or more arrival descriptors, every one of them has a
   * rate; the configuration then
   * holds the drawn samples, and it is a valid one when
   * there is at least one job and one queue and every sample is non-negative.
   */
  lemma SetUpSucceeds(arrivalDists: seq<Distribution>, serviceDists: seq<Distribution>, numJobs: nat,
                      jackson: bool, numQueues: nat,
                      arrivalSamples: seq<real>, serviceSamples: seq<seq<real>>)
    requires |arrivalSamples| == numJobs && |serviceSamples| == numQueues
    requires forall q :: 0 <= q < numQueues ==> |serviceSamples[q]| == numJobs
    ensures var r := SetUp(arrivalDists, serviceDists, numJobs, jackson, numQueues, arrivalSamples, serviceSamples);
      && (r.Ok? <==>
            && arrivalDists != [] && ParseKind(arrivalDists[0].typeName).Ok?
            && |serviceDists| >= numQueues
            && (forall q :: 0 <= q < numQueues ==> ParseKind(serviceDists[q].typeName).Ok?)
            && (jackson && |arrivalDists| >= 2 ==> forall i :: 0 <= i < |arrivalDists| ==> arrivalDists[i].rate.Some?))
      && (r.Ok? ==>
            && r.value.cfg.sampling == Presampled(arrivalSamples, serviceSamples)
            && (r.value.cfg.numJobs, r.value.cfg.numQueues) == (numJobs, numQueues)
            && (jackson ==> r.value.arrivalRates == Rates(arrivalDists) && r.value.serviceRates == Rates(serviceDists)
                            && Ok(r.value.jacksonSystemThroughput) == SystemThroughput(Rates(arrivalDists)))
            && (!jackson ==> r.value.arrivalRates == [] && r.value.serviceRates == []
                             && r.value.jacksonSystemThroughput == Some(0.0))
            && (ValidConfig(r.value.cfg) <==>
                  && numJobs >= 1 && numQueues >= 1
                  && (forall k :: 0 <= k < numJobs ==> arrivalSamples[k] >= 0.0)
                  && (forall q, k :: 0 <= q < numQueues && 0 <= k < numJobs ==> serviceSamples[q][k] >= 0.0)))
  {
    var r := SetUp(arrivalDists, serviceDists, numJobs, jackson, numQueues, arrivalSamples, serviceSamples);
    if arrivalDists != [] && ParseKind(arrivalDists[0].typeName).Ok? && |serviceDists| < numQueues
       && FirstUnsupported(serviceDists, |serviceDists|).None? {
      assert r.Err?;
    }
    if |serviceDists| < numQueues && FirstUnsupported(serviceDists, |serviceDists|).Some? {
      var i := FirstUnsupported(serviceDists, |serviceDists|).value;
      assert i < numQueues && ParseKind(serviceDists[i].typeName).Err?;
    }
    if |serviceDists| >= numQueues && FirstUnsupported(serviceDists, numQueues).Some? {
      var i := FirstUnsupported(serviceDists, numQueues).value;
      assert i < numQueues && ParseKind(serviceDists[i].typeName).Err?;
    }
  }
}
