/** Types shared by every part of the model: optional values and results,
    the three risk labels, position-by-position pairing (Python's `zip`),
    and the label encoder that maps risk labels to class indices. */
module Common {

  datatype Option<+T> = None | Some(value: T) {
    function GetOr(default: T): T {
      match this
      case Some(v) => v
      case None => default
    }
  }

  datatype Result<+T, +E> = Success(value: T) | Failure(error: E)

  /** The three risk labels, ordered Low < Moderate < High by `Rank`. */
  datatype Risk = Low | Moderate | High

  function Rank(r: Risk): nat {
    match r
    case Low => 0
    case Moderate => 1
    case High => 2
  }

  /** The label as the source spells it. */
  function RiskName(r: Risk): string {
    match r
    case Low => "Low"
    case Moderate => "Moderate"
    case High => "High"
  }

  /** The inverse of `RiskName`: the label a string names, if any. */
  function ParseRisk(s: string): (r: Option<Risk>)
    ensures r.Some? <==> s in ValidRiskNames()
  {
    if s == "Low" then Some(Low)
    else if s == "Moderate" then Some(Moderate)
    else if s == "High" then Some(High)
    else None
  }

  function ValidRiskNames(): set<string> {
    {"Low", "Moderate", "High"}
  }

  lemma RiskNameRoundTrip(r: Risk)
    ensures ParseRisk(RiskName(r)) == Some(r)
  {
  }

  lemma ParseRiskRoundTrip(s: string)
    ensures ParseRisk(s).Some? ==> RiskName(ParseRisk(s).value) == s
  {
  }

  /** Python's `zip(keys, values)` kept as an ordered list of pairs: it stops
      at the shorter input and pairs the two position by position. */
  function Zip<K, V>(keys: seq<K>, values: seq<V>): (r: seq<(K, V)>)
    ensures |r| == if |keys| <= |values| then |keys| else |values|
    ensures forall i :: 0 <= i < |r| ==> r[i] == (keys[i], values[i])
  {
    if |keys| == 0 || |values| == 0 then []
    else [(keys[0], values[0])] + Zip(keys[1..], values[1..])
  }

  /** Python's `dict(pairs)`: later pairs overwrite earlier ones with the same key. */
  function PairsToMap<K, V>(pairs: seq<(K, V)>): (m: map<K, V>)
    ensures m.Keys == set i | 0 <= i < |pairs| :: pairs[i].0
    ensures |pairs| > 0 ==> m[pairs[|pairs| - 1].0] == pairs[|pairs| - 1].1
  {
    if |pairs| == 0 then map[]
    else
      var rest := PairsToMap(pairs[..|pairs| - 1]);
      var last := pairs[|pairs| - 1];
      assert forall i :: 0 <= i < |pairs| - 1 ==> pairs[..|pairs| - 1][i] == pairs[i];
      rest[last.0 := last.1]
  }

  /** scikit-learn's LabelEncoder after fitting: `classes` holds the distinct
      labels in sorted order, and class index i stands for `classes[i]`. */
  datatype LabelEncoder = LabelEncoder(classes: seq<string>)

  predicate DistinctClasses(le: LabelEncoder) {
    forall i, j :: 0 <= i < j < |le.classes| ==> le.classes[i] != le.classes[j]
  }

  /** `inverse_transform([i])[0]`: fails for an index the encoder never saw. */
  function Decode(le: LabelEncoder, i: int): (r: Option<string>)
    ensures r.Some? <==> 0 <= i < |le.classes|
    ensures r.Some? ==> r.value in le.classes
  {
    if 0 <= i < |le.classes| then Some(le.classes[i]) else None
  }

  /** `transform([label])[0]`: the position of the label among the classes. */
  function Encode(le: LabelEncoder, name: string): (r: Option<nat>)
    ensures r.Some? <==> name in le.classes
    ensures r.Some? ==> r.value < |le.classes| && le.classes[r.value] == name
  {
    IndexOf(le.classes, name)
  }

  function IndexOf(s: seq<string>, name: string): (r: Option<nat>)
    ensures r.Some? <==> name in s
    ensures r.Some? ==> r.value < |s| && s[r.value] == name
  {
    if |s| == 0 then None
    else if s[0] == name then Some(0)
    else
      match IndexOf(s[1..], name)
      case None => None
      case Some(k) => Some(k + 1)
  }

  /** Decoding an encoded label gives the label back, and, when the classes are
      distinct, encoding a decoded index gives the index back. */
  lemma {:induction false} EncoderRoundTrip(le: LabelEncoder, name: string, i: int)
    requires DistinctClasses(le)
    ensures name in le.classes ==> Decode(le, Encode(le, name).value) == Some(name)
    ensures 0 <= i < |le.classes| ==> Encode(le, Decode(le, i).value) == Some(i)
  {
    if 0 <= i < |le.classes| {
      var k := Encode(le, le.classes[i]).value;
      assert le.classes[k] == le.classes[i];
    }
  }
}
