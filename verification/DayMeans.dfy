/** Averages by day, as GROUP BY with AVG gives them, and how they recombine. */
module DayMeans {

  datatype Sample = Sample(day: int, value: real)

  function Sum(ss: seq<Sample>): real {
    if ss == [] then 0.0 else Sum(ss[..|ss| - 1]) + ss[|ss| - 1].value
  }

  /** The average of some samples, 0 when there are none. */
  function Mean(ss: seq<Sample>): real {
    if ss == [] then 0.0 else Sum(ss) / |ss| as real
  }

  function On(ss: seq<Sample>, day: int): (r: seq<Sample>)
    ensures forall s :: s in r ==> s in ss && s.day == day
  {
    if ss == [] then []
    else if ss[|ss| - 1].day == day then On(ss[..|ss| - 1], day) + [ss[|ss| - 1]]
    else On(ss[..|ss| - 1], day)
  }

  /** One group of the query. */
  datatype DayMean = DayMean(count: int, average: real)

  function MeanOn(ss: seq<Sample>, day: int): DayMean {
    DayMean(|On(ss, day)|, Mean(On(ss, day)))
  }

  function Weight(m: DayMean): real {
    m.average * m.count as real
  }

  function WeightedTotal(ms: seq<DayMean>): real {
    if ms == [] then 0.0 else WeightedTotal(ms[..|ms| - 1]) + Weight(ms[|ms| - 1])
  }

  function CountTotal(ms: seq<DayMean>): int {
    if ms == [] then 0 else CountTotal(ms[..|ms| - 1]) + ms[|ms| - 1].count
  }

  /** How a summary recombines daily averages. */
  function Recombined(ms: seq<DayMean>): real {
    if CountTotal(ms) > 0 then WeightedTotal(ms) / CountTotal(ms) as real else 0.0
  }

  /** The groups of the days from..until-1. */
  function ByDay(ss: seq<Sample>, from: int, until: int): (ms: seq<DayMean>)
    requires from <= until
    ensures |ms| == until - from && forall i :: 0 <= i < |ms| ==> ms[i] == MeanOn(ss, from + i)
  {
    seq(until - from, i requires 0 <= i < until - from => MeanOn(ss, from + i))
  }

  /** The samples of the days from..until-1. */
  function Within(ss: seq<Sample>, from: int, until: int): seq<Sample> {
    if ss == [] then []
    else if from <= ss[|ss| - 1].day < until then Within(ss[..|ss| - 1], from, until) + [ss[|ss| - 1]]
    else Within(ss[..|ss| - 1], from, until)
  }

  lemma {:induction false} OneMoreDay(ss: seq<Sample>, from: int, until: int)
    requires from <= until
    ensures Sum(Within(ss, from, until + 1)) == Sum(Within(ss, from, until)) + Sum(On(ss, until))
    ensures |Within(ss, from, until + 1)| == |Within(ss, from, until)| + |On(ss, until)|
  {
    if ss != [] { OneMoreDay(ss[..|ss| - 1], from, until); }
  }

  lemma {:induction false} NothingWithin(ss: seq<Sample>, from: int)
    ensures Within(ss, from, from) == []
  {
    if ss != [] { NothingWithin(ss[..|ss| - 1], from); }
  }

  lemma {:induction false} WeightOn(ss: seq<Sample>, day: int)
    ensures Weight(MeanOn(ss, day)) == Sum(On(ss, day))
  {
  }

  lemma {:induction false} LastDay(ss: seq<Sample>, from: int, until: int)
    requires from <= until
    ensures var ms, rest := ByDay(ss, from, until + 1), ByDay(ss, from, until);
            WeightedTotal(ms) == WeightedTotal(rest) + Sum(On(ss, until)) && CountTotal(ms) == CountTotal(rest) + |On(ss, until)|
  {
    var rest := ByDay(ss, from, until);
    assert ByDay(ss, from, until + 1) == rest + [MeanOn(ss, until)];
    WeightOn(ss, until);
  }

  lemma {:induction false} TotalsByDay(ss: seq<Sample>, from: int, until: int)
    requires from <= until
    ensures WeightedTotal(ByDay(ss, from, until)) == Sum(Within(ss, from, until))
    ensures CountTotal(ByDay(ss, from, until)) == |Within(ss, from, until)|
    decreases until - from
  {
    if from == until {
      NothingWithin(ss, from);
    } else {
      TotalsByDay(ss, from, until - 1);
      OneMoreDay(ss, from, until - 1);
      LastDay(ss, from, until - 1);
    }
  }

  lemma {:induction false} AllWithin(ss: seq<Sample>, from: int, until: int)
    requires forall i :: 0 <= i < |ss| ==> from <= ss[i].day < until
    ensures Within(ss, from, until) == ss
  {
    if ss != [] { AllWithin(ss[..|ss| - 1], from, until); }
  }

  /** Daily averages weighted by daily counts recombine to the average of all samples. */
  lemma {:induction false} RecombinedIsMean(ss: seq<Sample>, from: int, until: int)
    requires from <= until && forall i :: 0 <= i < |ss| ==> from <= ss[i].day < until
    ensures Recombined(ByDay(ss, from, until)) == Mean(ss) && CountTotal(ByDay(ss, from, until)) == |ss|
  {
    TotalsByDay(ss, from, until);
    AllWithin(ss, from, until);
  }
}
