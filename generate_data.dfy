/** The synthetic training-data generator: a table of city reading ranges, a
    threshold rule that labels one drawn sample, and the per-city sample
    plan with its four special patient profiles. Every random draw is an
    input, indexed by the position the sample takes in the dataset. */
module GenerateData {
  import opened Common

  datatype Range = Range(lo: real, hi: real)

  /** One city of the table: the ranges the readings are drawn from and the
      city's base risk label. */
  datatype CityData = CityData(
    name: string, pm25: Range, pm10: Range, humidity: Range, temperature: Range, pollen: Range,
    baseRisk: string)

  predicate WellFormedCity(c: CityData) {
    && c.pm25.lo < c.pm25.hi && c.pm10.lo < c.pm10.hi && c.humidity.lo < c.humidity.hi
    && c.temperature.lo < c.temperature.hi && c.pollen.lo < c.pollen.hi
    && c.baseRisk in ValidRiskNames()
  }

  /** `generate_city_data`: the ten cities, in table order. */
  function GenerateCityData(): (t: seq<CityData>)
    ensures |t| == 10
    ensures forall i :: 0 <= i < |t| ==> WellFormedCity(t[i])
  {
    [CityData("Delhi", Range(100.0, 500.0), Range(150.0, 600.0), Range(30.0, 80.0), Range(15.0, 45.0), Range(40.0, 90.0), "High"),
     CityData("Mumbai", Range(50.0, 200.0), Range(80.0, 300.0), Range(60.0, 90.0), Range(20.0, 35.0), Range(30.0, 70.0), "Moderate"),
     CityData("Bangalore", Range(30.0, 100.0), Range(50.0, 150.0), Range(40.0, 70.0), Range(15.0, 30.0), Range(20.0, 60.0), "Low"),
     CityData("Chennai", Range(40.0, 150.0), Range(60.0, 200.0), Range(50.0, 85.0), Range(25.0, 40.0), Range(25.0, 65.0), "Moderate"),
     CityData("Kolkata", Range(80.0, 300.0), Range(120.0, 400.0), Range(55.0, 85.0), Range(18.0, 38.0), Range(35.0, 75.0), "Moderate"),
     CityData("Hyderabad", Range(45.0, 180.0), Range(70.0, 250.0), Range(35.0, 75.0), Range(20.0, 42.0), Range(30.0, 70.0), "Moderate"),
     CityData("Pune", Range(30.0, 120.0), Range(50.0, 180.0), Range(40.0, 75.0), Range(15.0, 35.0), Range(25.0, 65.0), "Low"),
     CityData("Ahmedabad", Range(120.0, 400.0), Range(180.0, 500.0), Range(25.0, 70.0), Range(18.0, 45.0), Range(45.0, 85.0), "High"),
     CityData("Jaipur", Range(90.0, 300.0), Range(140.0, 400.0), Range(20.0, 65.0), Range(10.0, 45.0), Range(40.0, 80.0), "Moderate"),
     CityData("Lucknow", Range(110.0, 350.0), Range(160.0, 450.0), Range(35.0, 80.0), Range(12.0, 42.0), Range(45.0, 85.0), "High")]
  }

  /** The readings of one sample, as drawn (before rounding). */
  datatype Readings = Readings(
    pm25: real, pm10: real, humidity: real, temperature: real, pollenLevel: real,
    windSpeed: real, pressure: real,
    patientAge: int, patientHistorySevereAttacks: int, medicationAdherence: real)

  /** A generated sample: its readings and its label. */
  datatype Sample = Sample(readings: Readings, asthmaRisk: Risk)

  /** The pollution rule: 2 points for very high particulates, else 1 for high. */
  function PollutionPoints(pm25: real, pm10: real): (p: nat)
    ensures p <= 2
    ensures p == 0 <==> pm25 <= 75.0 && pm10 <= 125.0
    ensures p == 2 <==> pm25 > 150.0 || pm10 > 200.0
  {
    if pm25 > 150.0 || pm10 > 200.0 then 2
    else if pm25 > 75.0 || pm10 > 125.0 then 1
    else 0
  }

  /** The pollen rule: 2 points above 70, else 1 above 40. */
  function PollenPoints(pollen: real): (p: nat)
    ensures p <= 2
    ensures p == 0 <==> pollen <= 40.0
    ensures p == 2 <==> pollen > 70.0
  {
    if pollen > 70.0 then 2 else if pollen > 40.0 then 1 else 0
  }

  /** One point outside the comfortable temperature or humidity band. */
  function ExtremePoint(x: real, low: real, high: real): (p: nat)
    ensures p <= 1
    ensures p == 1 <==> x < low || x > high
  {
    if x < low || x > high then 1 else 0
  }

  /** The environmental score: the sum of the four environmental rules. */
  function EnvRiskScore(d: Readings): (s: nat)
    ensures s <= 6
  {
    PollutionPoints(d.pm25, d.pm10) + ExtremePoint(d.temperature, 5.0, 40.0)
    + ExtremePoint(d.humidity, 30.0, 80.0) + PollenPoints(d.pollenLevel)
  }

  /** The severe-attack rule: 2 points above 3 attacks, else 1 above 1. */
  function AttackPoints(attacks: int): (p: nat)
    ensures p <= 2
    ensures p == 2 <==> attacks > 3
    ensures p == 0 <==> attacks <= 1
  {
    if attacks > 3 then 2 else if attacks > 1 then 1 else 0
  }

  /** The adherence rule: 2 points below 0.7, else 1 below 0.9. */
  function AdherencePoints(adherence: real): (p: nat)
    ensures p <= 2
    ensures p == 2 <==> adherence < 0.7
    ensures p == 0 <==> adherence >= 0.9
  {
    if adherence < 0.7 then 2 else if adherence < 0.9 then 1 else 0
  }

  /** The patient score: the sum of the three patient rules. */
  function PatientRiskScore(d: Readings): (s: nat)
    ensures s <= 5
  {
    ExtremePoint(d.patientAge as real, 10.0, 65.0) + AttackPoints(d.patientHistorySevereAttacks)
    + AdherencePoints(d.medicationAdherence)
  }

  /** The city adjustment: +1 for a High base risk, -1 for Low, 0 otherwise. */
  function CityAdjustment(baseRisk: string): (a: int)
    ensures -1 <= a <= 1
    ensures a == 1 <==> baseRisk == "High"
    ensures a == -1 <==> baseRisk == "Low"
  {
    if baseRisk == "High" then 1 else if baseRisk == "Low" then -1 else 0
  }

  /** The adjusted total score of a sample. */
  function TotalRiskScore(city: CityData, d: Readings): (t: int)
    ensures -1 <= t <= 12
  {
    EnvRiskScore(d) + PatientRiskScore(d) + CityAdjustment(city.baseRisk)
  }

  /** The cut into labels: High from 4, Moderate from 2, Low below. */
  function LabelOf(total: int): (r: Risk)
    ensures r == High <==> total >= 4
    ensures r == Moderate <==> 2 <= total < 4
    ensures r == Low <==> total < 2
  {
    if total >= 4 then High else if total >= 2 then Moderate else Low
  }

  /** The label never goes down as the total goes up. */
  lemma LabelMonotone(a: int, b: int)
    requires a <= b
    ensures Rank(LabelOf(a)) <= Rank(LabelOf(b))
  {
  }

  /** Worse pollution or pollen, more severe attacks and lower adherence
      never lower the label. */
  lemma WorseReadingsNeverLowerLabel(city: CityData, d: Readings, e: Readings)
    requires d.pm25 <= e.pm25 && d.pm10 <= e.pm10 && d.pollenLevel <= e.pollenLevel
    requires d.temperature == e.temperature && d.humidity == e.humidity && d.patientAge == e.patientAge
    requires d.patientHistorySevereAttacks <= e.patientHistorySevereAttacks
    requires e.medicationAdherence <= d.medicationAdherence
    ensures TotalRiskScore(city, d) <= TotalRiskScore(city, e)
    ensures Rank(LabelOf(TotalRiskScore(city, d))) <= Rank(LabelOf(TotalRiskScore(city, e)))
  {
    LabelMonotone(TotalRiskScore(city, d), TotalRiskScore(city, e));
  }

  /** The sample `generate_realistic_sample` returns for the given draws. */
  function RealisticSample(city: CityData, d: Readings): Sample {
    Sample(d, LabelOf(TotalRiskScore(city, d)))
  }

  /** The environmental half of `generate_realistic_sample`, rule by rule. */
  method AccumulateEnvRiskScore(d: Readings) returns (envRiskScore: int)
    ensures envRiskScore == EnvRiskScore(d)
  {
    envRiskScore := 0;
    if d.pm25 > 150.0 || d.pm10 > 200.0 {
      envRiskScore := envRiskScore + 2;
    } else if d.pm25 > 75.0 || d.pm10 > 125.0 {
      envRiskScore := envRiskScore + 1;
    }
    if d.temperature < 5.0 || d.temperature > 40.0 {
      envRiskScore := envRiskScore + 1;
    }
    if d.humidity < 30.0 || d.humidity > 80.0 {
      envRiskScore := envRiskScore + 1;
    }
    if d.pollenLevel > 70.0 {
      envRiskScore := envRiskScore + 2;
    } else if d.pollenLevel > 40.0 {
      envRiskScore := envRiskScore + 1;
    }
  }

  /** The patient half of `generate_realistic_sample`, rule by rule. */
  method AccumulatePatientRiskScore(d: Readings) returns (patientRiskScore: int)
    ensures patientRiskScore == PatientRiskScore(d)
  {
    patientRiskScore := 0;
    if d.patientAge < 10 || d.patientAge > 65 {
      patientRiskScore := patientRiskScore + 1;
    }
    if d.patientHistorySevereAttacks > 3 {
      patientRiskScore := patientRiskScore + 2;
    } else if d.patientHistorySevereAttacks > 1 {
      patientRiskScore := patientRiskScore + 1;
    }
    if d.medicationAdherence < 0.7 {
      patientRiskScore := patientRiskScore + 2;
    } else if d.medicationAdherence < 0.9 {
      patientRiskScore := patientRiskScore + 1;
    }
  }

  /** `generate_realistic_sample`: the two scores, the city adjustment, and
      the cut into a label. */
  method GenerateRealisticSample(city: CityData, d: Readings) returns (s: Sample)
    ensures s == RealisticSample(city, d)
  {
    var envRiskScore := AccumulateEnvRiskScore(d);
    var patientRiskScore := AccumulatePatientRiskScore(d);
    var totalRiskScore := envRiskScore + patientRiskScore;
    if city.baseRisk == "High" {
      totalRiskScore := totalRiskScore + 1;
    } else if city.baseRisk == "Low" {
      totalRiskScore := totalRiskScore - 1;
    }
    var asthmaRisk: Risk;
    if totalRiskScore >= 4 {
      asthmaRisk := High;
    } else if totalRiskScore >= 2 {
      asthmaRisk := Moderate;
    } else {
      asthmaRisk := Low;
    }
    s := Sample(d, asthmaRisk);
  }

  /** The one-step escalation applied to the two modified profiles: one tier
      up, capped at High. */
  function Escalate(r: Risk): (e: Risk)
    ensures Rank(e) == if Rank(r) == 2 then 2 else Rank(r) + 1
    ensures e != Low
    ensures Rank(r) <= Rank(e)
  {
    if r != High then (if r == Low then Moderate else High) else High
  }

  /** Replacing the attack count with one above 3, or the adherence with one
      below 0.7, raises the total by 0 to 2 points. So the escalated label is
      never below the label the rule would give the modified sample, and never
      below the original one. */
  lemma EscalationCoversRecomputation(city: CityData, d: Readings, attacks: int, adherence: real)
    requires attacks > 3 && adherence < 0.7
    ensures var e := d.(patientHistorySevereAttacks := attacks);
      && TotalRiskScore(city, d) <= TotalRiskScore(city, e) <= TotalRiskScore(city, d) + 2
      && Rank(LabelOf(TotalRiskScore(city, e))) <= Rank(Escalate(LabelOf(TotalRiskScore(city, d))))
    ensures var e := d.(medicationAdherence := adherence);
      && TotalRiskScore(city, d) <= TotalRiskScore(city, e) <= TotalRiskScore(city, d) + 2
      && Rank(LabelOf(TotalRiskScore(city, e))) <= Rank(Escalate(LabelOf(TotalRiskScore(city, d))))
  {
  }

  /** The escalated label can be above the label the rule gives the modified
      sample: a low-risk city's sample that already had more than 3 attacks
      stays Low under the rule but is stored as Moderate. */
  lemma EscalationCanExceedRule()
    ensures var city := CityData("Bangalore", Range(30.0, 100.0), Range(50.0, 150.0), Range(40.0, 70.0),
                                 Range(15.0, 30.0), Range(20.0, 60.0), "Low");
      var d := Readings(30.0, 50.0, 50.0, 20.0, 30.0, 5.0, 1000.0, 30, 5, 0.95);
      var e := d.(patientHistorySevereAttacks := 7);
      && LabelOf(TotalRiskScore(city, e)) == Low
      && Escalate(LabelOf(TotalRiskScore(city, d))) == Moderate
  {
  }

  /** The random draws, by the position of the sample in the dataset. */
  datatype RandomSource = RandomSource(
    draws: nat -> Readings,
    youngAge: nat -> int,
    elderlyAge: nat -> int,
    severeAttacks: nat -> int,
    poorAdherence: nat -> real)

  /** The number of rounds of special profiles per city, four samples each. */
  const ProfileRounds: nat := 50

  /** One round of special profiles at position `k`: a young patient, an
      elderly patient, then a sample whose attack count is replaced and one
      whose adherence is replaced, both with escalated labels. */
  function FourProfiles(city: CityData, rs: RandomSource, k: nat): (s: seq<Sample>)
    ensures |s| == 4
    ensures s[2].asthmaRisk != Low && s[3].asthmaRisk != Low
  {
    var young := RealisticSample(city, rs.draws(k).(patientAge := rs.youngAge(k)));
    var elderly := RealisticSample(city, rs.draws(k + 1).(patientAge := rs.elderlyAge(k + 1)));
    var severe := RealisticSample(city, rs.draws(k + 2));
    var poor := RealisticSample(city, rs.draws(k + 3));
    [young, elderly,
     Sample(severe.readings.(patientHistorySevereAttacks := rs.severeAttacks(k + 2)), Escalate(severe.asthmaRisk)),
     Sample(poor.readings.(medicationAdherence := rs.poorAdherence(k + 3)), Escalate(poor.asthmaRisk))]
  }

  /** The ordinary sample of a city drawn at position `k`. */
  function OrdinaryDraw(rs: RandomSource): CityData -> nat -> Sample {
    city => (k: nat) => RealisticSample(city, rs.draws(k))
  }

  /** The round of special profiles of a city drawn from position `k` on. */
  function ProfileDraw(rs: RandomSource): CityData -> nat -> seq<Sample> {
    city => (k: nat) => FourProfiles(city, rs, k)
  }

  /** `count` ordinary samples drawn from position `start` on. */
  function Regulars<T>(sample: nat -> T, start: nat, count: nat): (s: seq<T>)
    ensures |s| == count
  {
    if count == 0 then []
    else Regulars(sample, start, count - 1) + [sample(start + count - 1)]
  }

  /** `rounds` rounds of special profiles drawn from position `start` on,
      four positions per round. */
  function Profiles<T>(round: nat -> seq<T>, start: nat, rounds: nat): seq<T> {
    if rounds == 0 then []
    else Profiles(round, start, rounds - 1) + round(start + 4 * (rounds - 1))
  }

  /** The loop over the cities from the `i`-th on, appending to `data`:
      for each city its `n` ordinary samples, then its profile rounds, each
      drawn at the position it takes in the dataset. */
  function Accumulate<C, T>(regular: C -> nat -> T, round: C -> nat -> seq<T>, cities: seq<C>,
                            i: nat, n: nat, rounds: nat, data: seq<T>): seq<T>
    requires i <= |cities|
    decreases |cities| - i
  {
    if i == |cities| then data
    else
      Accumulate(regular, round, cities, i + 1, n, rounds,
                 data + Regulars(regular(cities[i]), |data|, n) + Profiles(round(cities[i]), |data| + n, rounds))
  }

  /** The dataset `generate_diverse_dataset` builds over the given cities,
      before shuffling. */
  function DiverseDataset(rs: RandomSource, cities: seq<CityData>, n: nat, rounds: nat): seq<Sample> {
    Accumulate(OrdinaryDraw(rs), ProfileDraw(rs), cities, 0, n, rounds, [])
  }

  /** Rounds of four samples give four samples per round. */
  lemma {:induction false} ProfilesLength<T>(round: nat -> seq<T>, start: nat, rounds: nat)
    requires forall k :: |round(k)| == 4
    ensures |Profiles(round, start, rounds)| == 4 * rounds
  {
    if rounds > 0 {
      ProfilesLength(round, start, rounds - 1);
    }
  }

  /** Each remaining city contributes `n + 4 * rounds` samples. */
  lemma {:induction false} AccumulateSize<C, T>(regular: C -> nat -> T, round: C -> nat -> seq<T>, cities: seq<C>,
                                                i: nat, n: nat, rounds: nat, data: seq<T>)
    requires i <= |cities|
    requires forall c, j :: |round(c)(j)| == 4
    ensures |Accumulate(regular, round, cities, i, n, rounds, data)| == |data| + (|cities| - i) * (n + 4 * rounds)
    decreases |cities| - i
  {
    if i < |cities| {
      var next := data + Regulars(regular(cities[i]), |data|, n) + Profiles(round(cities[i]), |data| + n, rounds);
      ProfilesLength(round(cities[i]), |data| + n, rounds);
      AccumulateSize(regular, round, cities, i + 1, n, rounds, next);
      var size := n + 4 * rounds;
      assert (|cities| - i) * size == (|cities| - (i + 1)) * size + size;
    }
  }

  /** One turn of the loop appends the block of the next city. */
  lemma AccumulateStep<C, T>(regular: C -> nat -> T, round: C -> nat -> seq<T>, cities: seq<C>,
                             i: nat, n: nat, rounds: nat, data: seq<T>)
    requires i < |cities|
    ensures Accumulate(regular, round, cities, i, n, rounds, data) ==
      Accumulate(regular, round, cities, i + 1, n, rounds,
                 data + Regulars(regular(cities[i]), |data|, n) + Profiles(round(cities[i]), |data| + n, rounds))
  {
  }

  /** The loop only appends: what is in `data` stays, in place. */
  lemma {:induction false} AccumulateKeepsPrefix<C, T>(regular: C -> nat -> T, round: C -> nat -> seq<T>,
                                                       cities: seq<C>, i: nat, n: nat, rounds: nat, data: seq<T>)
    requires i <= |cities|
    ensures var all := Accumulate(regular, round, cities, i, n, rounds, data);
      |data| <= |all| && all[..|data|] == data
    decreases |cities| - i
  {
    if i < |cities| {
      var next := data + Regulars(regular(cities[i]), |data|, n) + Profiles(round(cities[i]), |data| + n, rounds);
      AccumulateKeepsPrefix(regular, round, cities, i + 1, n, rounds, next);
      var all := Accumulate(regular, round, cities, i + 1, n, rounds, next);
      assert all[..|data|] == all[..|next|][..|data|];
      assert next[..|data|] == data;
    }
  }

  /** The `i`-th ordinary sample is the one drawn at position `start + i`. */
  lemma {:induction false} RegularsAt<T>(sample: nat -> T, start: nat, count: nat, i: nat)
    requires i < count
    ensures Regulars(sample, start, count)[i] == sample(start + i)
  {
    if i < count - 1 {
      RegularsAt(sample, start, count - 1, i);
    }
  }

  /** Entry `t` of round `q` is entry `t` of the round drawn at position
      `start + 4 * q`. */
  lemma {:induction false} ProfilesAt<T>(round: nat -> seq<T>, start: nat, rounds: nat, q: nat, t: nat)
    requires forall k :: |round(k)| == 4
    requires q < rounds && t < 4
    ensures |Profiles(round, start, rounds)| == 4 * rounds
    ensures Profiles(round, start, rounds)[4 * q + t] == round(start + 4 * q)[t]
  {
    ProfilesLength(round, start, rounds);
    ProfilesLength(round, start, rounds - 1);
    if q < rounds - 1 {
      ProfilesAt(round, start, rounds - 1, q, t);
    }
  }

  /** Every ordinary sample of a city carries the label the rule gives its
      readings. */
  lemma RegularsFollowRule(rs: RandomSource, city: CityData, start: nat, count: nat, i: nat)
    requires i < count
    ensures Regulars(OrdinaryDraw(rs)(city), start, count)[i] == RealisticSample(city, rs.draws(start + i))
  {
    RegularsAt(OrdinaryDraw(rs)(city), start, count, i);
  }

  /** The two modified profiles of every round of a city are never labelled Low. */
  lemma ModifiedProfilesNeverLow(rs: RandomSource, city: CityData, start: nat, rounds: nat, q: nat)
    requires q < rounds
    ensures var p := Profiles(ProfileDraw(rs)(city), start, rounds);
      && |p| == 4 * rounds
      && p[4 * q + 2].asthmaRisk != Low
      && p[4 * q + 3].asthmaRisk != Low
  {
    var round := ProfileDraw(rs)(city);
    assert forall k :: round(k) == FourProfiles(city, rs, k);
    ProfilesAt(round, start, rounds, q, 2);
    ProfilesAt(round, start, rounds, q, 3);
  }

  /** The loop's result opens with the first city's ordinary samples. */
  lemma AccumulateFirst<C, T>(regular: C -> nat -> T, round: C -> nat -> seq<T>, cities: seq<C>,
                              n: nat, rounds: nat, i: nat)
    requires |cities| > 0 && i < n
    ensures var all := Accumulate(regular, round, cities, 0, n, rounds, []);
      i < |all| && all[i] == regular(cities[0])(i)
  {
    var empty: seq<T> := [];
    var first := empty + Regulars(regular(cities[0]), |empty|, n) + Profiles(round(cities[0]), |empty| + n, rounds);
    AccumulateStep(regular, round, cities, 0, n, rounds, empty);
    AccumulateKeepsPrefix(regular, round, cities, 1, n, rounds, first);
    RegularsAt(regular(cities[0]), |empty|, n, i);
  }

  /** The dataset opens with the first city's ordinary samples, each
      labelled by the rule from the draw at its own position. */
  lemma FirstCityComesFirst(rs: RandomSource, cities: seq<CityData>, n: nat, rounds: nat, i: nat)
    requires |cities| > 0 && i < n
    ensures i < |DiverseDataset(rs, cities, n, rounds)|
    ensures DiverseDataset(rs, cities, n, rounds)[i] == RealisticSample(cities[0], rs.draws(i))
  {
    AccumulateFirst(OrdinaryDraw(rs), ProfileDraw(rs), cities, n, rounds, i);
  }

  /** One round of the special profiles, drawn at position `k`. */
  method ProfileRound(city: CityData, rs: RandomSource, k: nat) returns (four: seq<Sample>)
    ensures four == FourProfiles(city, rs, k)
    ensures four == ProfileDraw(rs)(city)(k)
  {
    var young := GenerateRealisticSample(city, rs.draws(k).(patientAge := rs.youngAge(k)));
    var elderly := GenerateRealisticSample(city, rs.draws(k + 1).(patientAge := rs.elderlyAge(k + 1)));
    var severe := GenerateRealisticSample(city, rs.draws(k + 2));
    severe := severe.(readings := severe.readings.(patientHistorySevereAttacks := rs.severeAttacks(k + 2)));
    if severe.asthmaRisk != High {
      severe := severe.(asthmaRisk := if severe.asthmaRisk == Low then Moderate else High);
    }
    var poor := GenerateRealisticSample(city, rs.draws(k + 3));
    poor := poor.(readings := poor.readings.(medicationAdherence := rs.poorAdherence(k + 3)));
    if poor.asthmaRisk != High {
      poor := poor.(asthmaRisk := if poor.asthmaRisk == Low then Moderate else High);
    }
    four := [young, elderly, severe, poor];
  }

  /** Appending the next part to a prefix of `data + whole` extends it by
      that part, when `whole` is the prefix's part plus the next one. */
  lemma AppendStep<T>(data: seq<T>, done: seq<T>, next: seq<T>, whole: seq<T>, out: seq<T>)
    requires out == data + done
    requires whole == done + next
    ensures out + next == data + whole
  {
  }

  /** Ordinary samples, then profile rounds from the position after them. */
  lemma AppendBlock<T>(data: seq<T>, first: seq<T>, n: nat, round: nat -> seq<T>, mid: nat, rounds: nat,
                       middle: seq<T>, out: seq<T>)
    requires mid == |data| + n
    requires middle == data + first
    requires out == middle + Profiles(round, mid, rounds)
    ensures out == data + first + Profiles(round, |data| + n, rounds)
  {
  }

  /** One more ordinary sample appends the sample drawn at the next position. */
  lemma RegularsStep<T>(sample: nat -> T, start: nat, j: nat, x: T)
    requires x == sample(start + j)
    ensures Regulars(sample, start, j + 1) == Regulars(sample, start, j) + [x]
  {
  }

  /** The first loop of a city: `count` ordinary samples. */
  method AppendRegulars(data: seq<Sample>, city: CityData, rs: RandomSource, start: nat, count: nat)
    returns (out: seq<Sample>)
    requires start == |data|
    ensures out == data + Regulars(OrdinaryDraw(rs)(city), start, count)
  {
    out := data;
    for j := 0 to count
      invariant out == data + Regulars(OrdinaryDraw(rs)(city), start, j)
    {
      var sample := GenerateRealisticSample(city, rs.draws(start + j));
      RegularsStep(OrdinaryDraw(rs)(city), start, j, sample);
      AppendStep(data, Regulars(OrdinaryDraw(rs)(city), start, j), [sample],
                 Regulars(OrdinaryDraw(rs)(city), start, j + 1), out);
      out := out + [sample];
    }
  }

  /** One more round appends the round drawn after the earlier ones. */
  lemma ProfilesStep<T>(round: nat -> seq<T>, start: nat, q: nat, k: nat, four: seq<T>)
    requires k == start + 4 * q
    requires four == round(k)
    ensures Profiles(round, start, q + 1) == Profiles(round, start, q) + four
  {
  }

  /** The second loop of a city: `rounds` rounds of special profiles. */
  method AppendProfiles(data: seq<Sample>, city: CityData, rs: RandomSource, start: nat, rounds: nat)
    returns (out: seq<Sample>)
    requires start == |data|
    ensures out == data + Profiles(ProfileDraw(rs)(city), start, rounds)
  {
    out := data;
    for q := 0 to rounds
      invariant out == data + Profiles(ProfileDraw(rs)(city), start, q)
    {
      var k := start + 4 * q;
      var four := ProfileRound(city, rs, k);
      ProfilesStep(ProfileDraw(rs)(city), start, q, k, four);
      AppendStep(data, Profiles(ProfileDraw(rs)(city), start, q), four,
                 Profiles(ProfileDraw(rs)(city), start, q + 1), out);
      out := out + four;
    }
  }

  /** The per-city body of `generate_diverse_dataset`: the city's ordinary
      samples, then its profile rounds. */
  method AppendCityBlock(data: seq<Sample>, city: CityData, n: nat, rounds: nat, rs: RandomSource)
    returns (out: seq<Sample>)
    ensures out == data + Regulars(OrdinaryDraw(rs)(city), |data|, n)
                        + Profiles(ProfileDraw(rs)(city), |data| + n, rounds)
  {
    var mid := |data| + n;
    var regular := AppendRegulars(data, city, rs, |data|, n);
    out := AppendProfiles(regular, city, rs, mid, rounds);
    AppendBlock(data, Regulars(OrdinaryDraw(rs)(city), |data|, n), n, ProfileDraw(rs)(city), mid, rounds, regular, out);
  }

  /** The loop over the city table, for any table and number of rounds. */
  method GenerateDataset(cities: seq<CityData>, n: nat, rounds: nat, rs: RandomSource) returns (data: seq<Sample>)
    ensures data == DiverseDataset(rs, cities, n, rounds)
    ensures |data| == |cities| * (n + 4 * rounds)
  {
    data := [];
    for ci := 0 to |cities|
      invariant Accumulate(OrdinaryDraw(rs), ProfileDraw(rs), cities, ci, n, rounds, data) == DiverseDataset(rs, cities, n, rounds)
    {
      data := AppendCityBlock(data, cities[ci], n, rounds, rs);
    }
    assert forall c, j :: |ProfileDraw(rs)(c)(j)| == 4;
    AccumulateSize(OrdinaryDraw(rs), ProfileDraw(rs), cities, 0, n, rounds, []);
  }

  /** `generate_diverse_dataset`, without the final shuffle: for each city of
      the table, `n` ordinary samples, then 50 rounds of the four special
      profiles. */
  method GenerateDiverseDataset(n: nat, rs: RandomSource) returns (data: seq<Sample>)
    ensures data == DiverseDataset(rs, GenerateCityData(), n, ProfileRounds)
    ensures |data| == 10 * (n + 200)
  {
    data := GenerateDataset(GenerateCityData(), n, ProfileRounds, rs);
  }
}
