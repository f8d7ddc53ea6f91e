/** The symptom severity scorer: a fixed integer weight per recognised
    symptom, summed over the symptoms reported as present, and cut into
    three tiers. The same rule is written out twice in the system (the
    symptom-report view and the report collector); both copies are proved
    against the functions here. */
module Severity {
  import opened Common

  /** A symptoms dictionary as its `items()`: names with their reported
      truth value, in insertion order. Only lists with distinct names
      (`DistinctKeys`) come from a decoded dictionary; the functions are
      defined on every list, and the lemmas that relate the list to the
      dictionary assume distinct names. */
  type Symptoms = seq<(string, bool)>

  /** The weight table. Names outside it are ignored. */
  const SeverityMap: map<string, nat> :=
    map["wheezing" := 3, "shortness_of_breath" := 3, "chest_tightness" := 2,
        "coughing" := 2, "difficulty_sleeping" := 1]

  /** What one item adds: its weight when it is present and recognised. */
  function ItemPoints(item: (string, bool)): nat {
    if item.1 && item.0 in SeverityMap then SeverityMap[item.0] else 0
  }

  /** The score the loop accumulates over the items, in order. */
  function Score(items: Symptoms): nat {
    if |items| == 0 then 0
    else Score(items[..|items| - 1]) + ItemPoints(items[|items| - 1])
  }

  /** The cut into tiers: High at 5 and above, Moderate at 3 or 4, Low below 3. */
  function Tier(score: int): (r: Risk)
    ensures r == High <==> score >= 5
    ensures r == Moderate <==> 3 <= score < 5
    ensures r == Low <==> score < 3
  {
    if score >= 5 then High
    else if score >= 3 then Moderate
    else Low
  }

  /** A dictionary has each key once. */
  predicate DistinctKeys(items: Symptoms) {
    forall i, j :: 0 <= i < j < |items| ==> items[i].0 != items[j].0
  }

  function Present(m: map<string, bool>, name: string): bool {
    name in m && m[name]
  }

  /** An independent statement of the score of a dictionary: one term per
      recognised symptom, read directly off the dictionary. */
  function ReferenceScore(m: map<string, bool>): nat {
    (if Present(m, "wheezing") then 3 else 0)
    + (if Present(m, "shortness_of_breath") then 3 else 0)
    + (if Present(m, "chest_tightness") then 2 else 0)
    + (if Present(m, "coughing") then 2 else 0)
    + (if Present(m, "difficulty_sleeping") then 1 else 0)
  }

  /** Adding a key the dictionary does not hold adds exactly that item's points. */
  lemma ReferenceScoreAdd(m: map<string, bool>, item: (string, bool))
    requires item.0 !in m
    ensures ReferenceScore(m[item.0 := item.1]) == ReferenceScore(m) + ItemPoints(item)
  {
  }

  /** For a dictionary (distinct keys), the accumulated score is the
      reference score of the dictionary the items describe. */
  lemma {:induction false} ScoreMatchesReference(items: Symptoms)
    requires DistinctKeys(items)
    ensures Score(items) == ReferenceScore(PairsToMap(items))
  {
    if |items| > 0 {
      var n := |items| - 1;
      var prefix := items[..n];
      assert DistinctKeys(prefix);
      ScoreMatchesReference(prefix);
      assert forall i :: 0 <= i < |prefix| ==> prefix[i].0 != items[n].0;
      ReferenceScoreAdd(PairsToMap(prefix), items[n]);
    }
  }

  /** The score of any dictionary lies between 0 and 11. */
  lemma ReferenceScoreBounds(m: map<string, bool>)
    ensures 0 <= ReferenceScore(m) <= 11
    ensures ReferenceScore(m) == 11 <==> forall name :: name in SeverityMap ==> Present(m, name)
  {
    if ReferenceScore(m) == 11 {
      forall name | name in SeverityMap ensures Present(m, name) {
      }
    }
  }

  /** The tier never goes down as the score goes up. */
  lemma TierMonotone(a: int, b: int)
    requires a <= b
    ensures Rank(Tier(a)) <= Rank(Tier(b))
  {
  }

  /** Reporting one more recognised symptom as present never lowers the tier,
      and raises the score by its weight when it was not already present. */
  lemma AddingSymptomNeverLowersTier(m: map<string, bool>, name: string)
    requires name in SeverityMap
    ensures ReferenceScore(m) <= ReferenceScore(m[name := true])
    ensures !Present(m, name) ==> ReferenceScore(m[name := true]) == ReferenceScore(m) + SeverityMap[name]
    ensures Rank(Tier(ReferenceScore(m))) <= Rank(Tier(ReferenceScore(m[name := true])))
  {
    TierMonotone(ReferenceScore(m), ReferenceScore(m[name := true]));
  }

  /** The two worked examples: wheezing with shortness of breath scores 6 (High),
      coughing alone scores 2 (Low). */
  lemma WorkedExamples()
    ensures Score([("wheezing", true), ("shortness_of_breath", true)]) == 6
    ensures Tier(Score([("wheezing", true), ("shortness_of_breath", true)])) == High
    ensures Score([("coughing", true)]) == 2
    ensures Tier(Score([("coughing", true)])) == Low
  {
    var two := [("wheezing", true), ("shortness_of_breath", true)];
    assert two[..1] == [("wheezing", true)];
    assert [("wheezing", true)][..0] == [];
    assert [("coughing", true)][..0] == [];
  }
}
