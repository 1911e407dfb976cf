/**
 * Closed-form values of a tandem Jackson network: every station is an M/M/1
 * queue fed at the external arrival rate lambda of the first queue. Each
 * division by zero in the formulas is a failure.
 */
module Jackson {
  import opened Common

  /** The analytic values for one station. */
  datatype Station = Station(utilization: real, avgQueueLength: real, meanSojournTime: real)

  /** lambda / mu is one exactly when the two rates are equal. */
  lemma LoadIsOne(lambda: real, mu: real)
    requires mu != 0.0
    ensures lambda / mu == 1.0 <==> lambda == mu
  {
    if lambda / mu == 1.0 {
      assert lambda == (lambda / mu) * mu;
    }
  }

  /** rho / (1 - rho) with rho = lambda / mu, divided by lambda, is 1 / (mu - lambda). */
  lemma SojournFormula(lambda: real, mu: real)
    requires mu != 0.0 && lambda != mu
    ensures var rho := lambda / mu;
      rho != 1.0 && (lambda != 0.0 ==> (rho / (1.0 - rho)) / lambda == 1.0 / (mu - lambda))
  {
    LoadIsOne(lambda, mu);
    var rho := lambda / mu;
    assert 1.0 - rho == (mu - lambda) / mu;
    assert rho / (1.0 - rho) == lambda / (mu - lambda);
  }

  /**
   * The values for station i with service rates mus, in the order they are
   * computed: utilization rho = lambda / mu, average length rho / (1 - rho),
   * mean sojourn length / lambda. A rate that is absent (no entry for queue
   * i, or a descriptor without a rate) or a zero divisor fails. The
   * mean sojourn is the textbook 1 / (mu - lambda), and the average length is
   * lambda times the mean sojourn (Little's law).
   */
  function StationAt(lambda: real, mus: seq<Option<real>>, i: nat): (r: Result<Station>)
    ensures r.Ok? <==> i < |mus| && mus[i].Some? && mus[i].value != 0.0 && mus[i].value != lambda && lambda != 0.0
    ensures r.Err? ==> r.error == if i < |mus| && mus[i].Some? then DivisionByZero else MissingRate
    ensures r.Ok? ==>
      && r.value.utilization == lambda / mus[i].value
      && r.value.meanSojournTime == 1.0 / (mus[i].value - lambda)
      && r.value.avgQueueLength == lambda * r.value.meanSojournTime
  {
    if i >= |mus| || mus[i].None? then Err(MissingRate)
    else
      var mu := mus[i].value;
      if mu == 0.0 then Err(DivisionByZero)
      else
        var rho := lambda / mu;
        LoadIsOne(lambda, mu);
        if rho == 1.0 then Err(DivisionByZero)
        else
          var len := rho / (1.0 - rho);
          if lambda == 0.0 then Err(DivisionByZero)
          else
            SojournFormula(lambda, mu);
            Ok(Station(rho, len, len / lambda))
  }

  /** A stable station, 0 < lambda < mu, has a load strictly between 0 and 1 and a positive length and sojourn. */
  lemma StableStation(lambda: real, mus: seq<Option<real>>, i: nat)
    requires i < |mus| && mus[i].Some? && 0.0 < lambda < mus[i].value
    ensures var r := StationAt(lambda, mus, i);
      && r.Ok?
      && 0.0 < r.value.utilization < 1.0
      && r.value.avgQueueLength > 0.0
      && r.value.meanSojournTime > 0.0
  {
    var mu := mus[i].value;
    assert lambda / mu * mu == lambda;
  }

  /**
   * Stations 0 to n - 1 in order; the first one that fails decides the error.
   */
  function Stations(lambda: real, mus: seq<Option<real>>, n: nat): (r: Result<seq<Station>>)
    ensures r.Ok? <==> forall i :: 0 <= i < n ==> StationAt(lambda, mus, i).Ok?
    ensures r.Ok? ==> |r.value| == n && forall i :: 0 <= i < n ==> StationAt(lambda, mus, i) == Ok(r.value[i])
    ensures r.Err? ==> exists i :: 0 <= i < n && StationAt(lambda, mus, i) == Err(r.error) &&
                        forall k :: 0 <= k < i ==> StationAt(lambda, mus, k).Ok?
  {
    if n == 0 then Ok([])
    else
      match Stations(lambda, mus, n - 1)
      case Err(e) => Err(e)
      case Ok(xs) =>
        match StationAt(lambda, mus, n - 1)
        case Err(e) => Err(e)
        case Ok(x) => Ok(xs + [x])
  }

  /** Once station i fails after every station before it succeeded, every longer run of stations fails with station i's error. */
  lemma {:induction false} StationsStop(lambda: real, mus: seq<Option<real>>, i: nat, n: nat, xs: seq<Station>)
    requires i < n
    requires Stations(lambda, mus, i) == Ok(xs)
    requires StationAt(lambda, mus, i).Err?
    ensures Stations(lambda, mus, n) == Err(StationAt(lambda, mus, i).error)
    decreases n
  {
    if n > i + 1 {
      StationsStop(lambda, mus, i, n - 1, xs);
    }
  }

  /** The analytic values stored for the whole network. */
  datatype Network = Network(
    utilization: seq<real>,
    avgQueueLength: seq<real>,
    meanSojournTimePerQueue: seq<real>,
    avgJobsInSystem: real,
    meanSojournTimeInSystem: real)

  function Utilizations(xs: seq<Station>): (r: seq<real>)
    ensures |r| == |xs| && forall i :: 0 <= i < |xs| ==> r[i] == xs[i].utilization
  {
    seq(|xs|, i requires 0 <= i < |xs| => xs[i].utilization)
  }

  function Lengths(xs: seq<Station>): (r: seq<real>)
    ensures |r| == |xs| && forall i :: 0 <= i < |xs| ==> r[i] == xs[i].avgQueueLength
  {
    seq(|xs|, i requires 0 <= i < |xs| => xs[i].avgQueueLength)
  }

  /** Appending a station adds its length to the sum of the lengths. */
  lemma LengthsAppend(xs: seq<Station>, x: Station)
    ensures Sum(Lengths(xs + [x])) == Sum(Lengths(xs)) + x.avgQueueLength
  {
    assert Lengths(xs + [x]) == Lengths(xs) + [x.avgQueueLength];
    SumAppend(Lengths(xs), [x.avgQueueLength]);
    assert Sum([x.avgQueueLength]) == x.avgQueueLength;
  }

  function SojournTimes(xs: seq<Station>): (r: seq<real>)
    ensures |r| == |xs| && forall i :: 0 <= i < |xs| ==> r[i] == xs[i].meanSojournTime
  {
    seq(|xs|, i requires 0 <= i < |xs| => xs[i].meanSojournTime)
  }

  /**
   * The network's values: the first arrival rate feeds every station; the
   * average number in the system grows by the sum of the stations' lengths
   * from jobsBefore, and the mean sojourn in the system is that number divided
   * by the arrival rate. No arrival rate at all, or a first arrival
   * descriptor without a rate, is a failure.
   */
  function Determine(arrivalRates: seq<Option<real>>, serviceRates: seq<Option<real>>, numQueues: nat, jobsBefore: real): (r: Result<Network>)
    ensures arrivalRates == [] ==> r == Err(NoArrivalRate)
    ensures arrivalRates != [] && arrivalRates[0].None? ==> r == Err(MissingRate)
  {
    if arrivalRates == [] then Err(NoArrivalRate)
    else if arrivalRates[0].None? then Err(MissingRate)
    else
      var lambda := arrivalRates[0].value;
      match Stations(lambda, serviceRates, numQueues)
      case Err(e) => Err(e)
      case Ok(xs) =>
        var total := jobsBefore + Sum(Lengths(xs));
        if lambda == 0.0 then Err(DivisionByZero)
        else Ok(Network(Utilizations(xs), Lengths(xs), SojournTimes(xs), total, total / lambda))
  }

  /**
   * The analytic values exist exactly when the first arrival rate is present
   * and not zero and every queue has a service rate that is present, not zero
   * and not equal to the arrival rate.
   */
  lemma DetermineSucceeds(arrivalRates: seq<Option<real>>, serviceRates: seq<Option<real>>, numQueues: nat, jobsBefore: real)
    ensures Determine(arrivalRates, serviceRates, numQueues, jobsBefore).Ok? <==>
      && arrivalRates != [] && arrivalRates[0].Some? && arrivalRates[0].value != 0.0
      && |serviceRates| >= numQueues
      && forall i :: 0 <= i < numQueues ==>
           serviceRates[i].Some? && serviceRates[i].value != 0.0 && serviceRates[i].value != arrivalRates[0].value
  {
    if arrivalRates != [] && arrivalRates[0].Some? {
      var lambda := arrivalRates[0].value;
      var r := Stations(lambda, serviceRates, numQueues);
      var d := Determine(arrivalRates, serviceRates, numQueues, jobsBefore);
      assert d.Ok? <==> r.Ok? && lambda != 0.0;
      if r.Ok? {
        forall i | 0 <= i < numQueues
          ensures i < |serviceRates| && serviceRates[i].Some? && serviceRates[i].value != 0.0 && serviceRates[i].value != lambda
        {
          assert StationAt(lambda, serviceRates, i).Ok?;
        }
      }
    }
  }

  /**
   * Every station's mean sojourn is 1 / (mu - lambda), and, starting from no
   * jobs, the network's mean sojourn is the sum of the stations' mean sojourns.
   */
  lemma DetermineSojourns(arrivalRates: seq<Option<real>>, serviceRates: seq<Option<real>>, numQueues: nat)
    ensures var r := Determine(arrivalRates, serviceRates, numQueues, 0.0);
      r.Ok? ==>
        && |r.value.meanSojournTimePerQueue| == numQueues <= |serviceRates|
        && (forall i :: 0 <= i < numQueues ==>
              && serviceRates[i].Some? && serviceRates[i].value != arrivalRates[0].value
              && r.value.meanSojournTimePerQueue[i] == 1.0 / (serviceRates[i].value - arrivalRates[0].value))
        && r.value.meanSojournTimeInSystem == Sum(r.value.meanSojournTimePerQueue)
  {
    var r := Determine(arrivalRates, serviceRates, numQueues, 0.0);
    if r.Ok? {
      var lambda := arrivalRates[0].value;
      var xs := Stations(lambda, serviceRates, numQueues).value;
      forall i | 0 <= i < numQueues
        ensures && i < |serviceRates| && serviceRates[i].Some? && serviceRates[i].value != lambda
                && SojournTimes(xs)[i] == Lengths(xs)[i] / lambda
                && SojournTimes(xs)[i] == 1.0 / (serviceRates[i].value - lambda)
      {
        assert StationAt(lambda, serviceRates, i) == Ok(xs[i]);
      }
      SumDivided(Lengths(xs), SojournTimes(xs), lambda);
    }
  }

  /**
   * The number in the system is the arrival rate times the mean sojourn in the
   * system (Little's law for the whole chain).
   */
  lemma DetermineLittle(arrivalRates: seq<Option<real>>, serviceRates: seq<Option<real>>, numQueues: nat, jobsBefore: real)
    ensures var r := Determine(arrivalRates, serviceRates, numQueues, jobsBefore);
      r.Ok? ==> r.value.avgJobsInSystem == arrivalRates[0].value * r.value.meanSojournTimeInSystem
  {
    var r := Determine(arrivalRates, serviceRates, numQueues, jobsBefore);
    if r.Ok? {
      DivThenMul(r.value.avgJobsInSystem, arrivalRates[0].value);
    }
  }

  lemma DivThenMul(a: real, d: real)
    requires d != 0.0
    ensures d * (a / d) == a
  {
  }

  /** One line of the comparison between a simulated queue and its analytic station. */
  datatype Comparison = Comparison(
    simulatedUtilization: real, jacksonUtilization: real,
    simulatedMeanJobs: real, jacksonMeanJobs: real,
    simulatedMeanSojourn: real, jacksonMeanSojourn: real,
    littleLhs: real, littleRhs: real)

  /**
   * Queue i's comparison: the analytic utilization lambda / mu, length
   * rho / (1 - rho) and sojourn 1 / (mu - lambda) beside the simulated ones,
   * and both sides of Little's law for the simulated queue. An absent rate or
   * a zero divisor fails; unlike StationAt, a zero arrival rate does not. When
   * the arrival rate is not zero the analytic values are StationAt's.
   */
  function CompareAt(lambda: real, mus: seq<Option<real>>, i: nat, util: real, meanJobs: real, meanSojourn: real): (r: Result<Comparison>)
    ensures r.Ok? <==> i < |mus| && mus[i].Some? && mus[i].value != 0.0 && mus[i].value != lambda
    ensures r.Ok? ==>
      && r.value.simulatedUtilization == util
      && r.value.simulatedMeanJobs == meanJobs == r.value.littleLhs
      && r.value.simulatedMeanSojourn == meanSojourn
      && r.value.littleRhs == meanSojourn * lambda
    ensures r.Ok? && lambda != 0.0 ==>
      var st := StationAt(lambda, mus, i);
      && st.Ok?
      && r.value.jacksonUtilization == st.value.utilization
      && r.value.jacksonMeanJobs == st.value.avgQueueLength
      && r.value.jacksonMeanSojourn == st.value.meanSojournTime
  {
    if i >= |mus| || mus[i].None? then Err(MissingRate)
    else
      var mu := mus[i].value;
      if mu == 0.0 then Err(DivisionByZero)
      else
        var rho := lambda / mu;
        LoadIsOne(lambda, mu);
        if rho == 1.0 then Err(DivisionByZero)
        else
          var len := rho / (1.0 - rho);
          SojournFormula(lambda, mu);
          Ok(Comparison(util, rho, meanJobs, len, meanSojourn, 1.0 / (mu - lambda),
                        meanJobs, meanSojourn * lambda))
  }

  /** Queues 0 to n - 1 compared in order; the first one that fails decides the error. */
  function Checks(lambda: real, mus: seq<Option<real>>, utils: seq<real>, means: seq<real>, sojourns: seq<real>, n: nat): (r: Result<seq<Comparison>>)
    requires n <= |utils| && n <= |means| && n <= |sojourns|
    ensures r.Ok? <==> forall i :: 0 <= i < n ==> CompareAt(lambda, mus, i, utils[i], means[i], sojourns[i]).Ok?
    ensures r.Ok? ==> |r.value| == n
    ensures r.Ok? ==> forall i :: 0 <= i < n ==> CompareAt(lambda, mus, i, utils[i], means[i], sojourns[i]) == Ok(r.value[i])
  {
    if n == 0 then Ok([])
    else
      match Checks(lambda, mus, utils, means, sojourns, n - 1)
      case Err(e) => Err(e)
      case Ok(cs) =>
        match CompareAt(lambda, mus, n - 1, utils[n - 1], means[n - 1], sojourns[n - 1])
        case Err(e) => Err(e)
        case Ok(c) => Ok(cs + [c])
  }

  /** Once queue i fails after every queue before it passed, every longer run of checks fails with queue i's error. */
  lemma {:induction false} ChecksStop(lambda: real, mus: seq<Option<real>>, utils: seq<real>, means: seq<real>,
                                      sojourns: seq<real>, i: nat, n: nat, cs: seq<Comparison>)
    requires i < n <= |utils| && n <= |means| && n <= |sojourns|
    requires Checks(lambda, mus, utils, means, sojourns, i) == Ok(cs)
    requires CompareAt(lambda, mus, i, utils[i], means[i], sojourns[i]).Err?
    ensures Checks(lambda, mus, utils, means, sojourns, n) == Err(CompareAt(lambda, mus, i, utils[i], means[i], sojourns[i]).error)
    decreases n
  {
    if n > i + 1 {
      ChecksStop(lambda, mus, utils, means, sojourns, i, n - 1, cs);
    }
  }

  /**
   * The per-queue part of the check of a simulation against the analytic
   * values: every queue's comparison, which needs the first arrival rate.
   */
  function JacksonCheck(arrivalRates: seq<Option<real>>, serviceRates: seq<Option<real>>, numQueues: nat,
                        utils: seq<real>, means: seq<real>, sojourns: seq<real>): (r: Result<seq<Comparison>>)
    requires numQueues <= |utils| && numQueues <= |means| && numQueues <= |sojourns|
    ensures r.Ok? && numQueues > 0 ==> arrivalRates != [] && arrivalRates[0].Some?
  {
    if numQueues == 0 then Ok([])
    else if arrivalRates == [] then Err(NoArrivalRate)
    else if arrivalRates[0].None? then Err(MissingRate)
    else Checks(arrivalRates[0].value, serviceRates, utils, means, sojourns, numQueues)
  }

  /**
   * The check succeeds exactly when the first arrival rate is present and
   * every queue has a present service rate that is neither zero nor the
   * arrival rate, and then, for a non-zero arrival rate, its analytic columns
   * are the network's values.
   */
  lemma JacksonCheckMatches(arrivalRates: seq<Option<real>>, serviceRates: seq<Option<real>>, numQueues: nat,
                            utils: seq<real>, means: seq<real>, sojourns: seq<real>)
    requires 0 < numQueues <= |utils| && numQueues <= |means| && numQueues <= |sojourns|
    ensures var r := JacksonCheck(arrivalRates, serviceRates, numQueues, utils, means, sojourns);
      && (r.Ok? <==>
            && arrivalRates != [] && arrivalRates[0].Some? && |serviceRates| >= numQueues
            && forall i :: 0 <= i < numQueues ==>
                 serviceRates[i].Some? && serviceRates[i].value != 0.0 && serviceRates[i].value != arrivalRates[0].value)
      && (r.Ok? && arrivalRates[0].value != 0.0 ==>
            var d := Determine(arrivalRates, serviceRates, numQueues, 0.0);
            && d.Ok? && |r.value| == numQueues
            && forall i :: 0 <= i < numQueues ==>
                 && r.value[i].jacksonUtilization == d.value.utilization[i]
                 && r.value[i].jacksonMeanJobs == d.value.avgQueueLength[i]
                 && r.value[i].jacksonMeanSojourn == d.value.meanSojournTimePerQueue[i])
  {
    var r := JacksonCheck(arrivalRates, serviceRates, numQueues, utils, means, sojourns);
    if arrivalRates != [] && arrivalRates[0].Some? {
      var lambda := arrivalRates[0].value;
      if r.Ok? {
        forall i | 0 <= i < numQueues
          ensures i < |serviceRates| && serviceRates[i].Some? && serviceRates[i].value != 0.0 && serviceRates[i].value != lambda
        {
          assert CompareAt(lambda, serviceRates, i, utils[i], means[i], sojourns[i]).Ok?;
        }
        if lambda != 0.0 {
          DetermineSucceeds(arrivalRates, serviceRates, numQueues, 0.0);
          var xs := Stations(lambda, serviceRates, numQueues).value;
          forall i | 0 <= i < numQueues
            ensures && r.value[i].jacksonUtilization == xs[i].utilization
                    && r.value[i].jacksonMeanJobs == xs[i].avgQueueLength
                    && r.value[i].jacksonMeanSojourn == xs[i].meanSojournTime
          {
            assert StationAt(lambda, serviceRates, i) == Ok(xs[i]);
            assert CompareAt(lambda, serviceRates, i, utils[i], means[i], sojourns[i]) == Ok(r.value[i]);
          }
        }
      }
    }
  }

  /** The expected time between arrivals, 1 / lambda, printed after the per-queue check. */
  function InterArrivalMean(arrivalRates: seq<Option<real>>): (r: Result<real>)
    ensures r.Ok? <==> arrivalRates != [] && arrivalRates[0].Some? && arrivalRates[0].value != 0.0
    ensures r.Ok? ==> r.value * arrivalRates[0].value == 1.0
  {
    if arrivalRates == [] then Err(NoArrivalRate)
    else if arrivalRates[0].None? then Err(MissingRate)
    else if arrivalRates[0].value == 0.0 then Err(DivisionByZero)
    else Ok(1.0 / arrivalRates[0].value)
  }
}
