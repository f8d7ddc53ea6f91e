/** The crowdsourced symptom-report store. The CSV file is held as the
    sequence of its data rows (the header line is the fixed header list);
    every cell is kept as the text the file holds. */
module DataCollection {
  import opened Common
  import opened Severity

  /** The column headers, in file order. */
  const ReportHeaders: seq<string> :=
    ["report_id", "timestamp", "user_id", "latitude", "longitude",
     "wheezing", "shortness_of_breath", "chest_tightness", "coughing",
     "difficulty_sleeping", "severity", "verified"]

  /** The five symptom columns, in file order. */
  const SymptomColumns: seq<string> :=
    ["wheezing", "shortness_of_breath", "chest_tightness", "coughing", "difficulty_sleeping"]

  /** One data row, cell by cell. */
  datatype Row = Row(
    reportId: string, timestamp: string, userId: string, latitude: string, longitude: string,
    wheezing: string, shortnessOfBreath: string, chestTightness: string, coughing: string,
    difficultySleeping: string, severity: string, verified: string)

  /** The cells of a row in header order. */
  function Cells(r: Row): (c: seq<string>)
    ensures |c| == |ReportHeaders| == 12
  {
    [r.reportId, r.timestamp, r.userId, r.latitude, r.longitude,
     r.wheezing, r.shortnessOfBreath, r.chestTightness, r.coughing,
     r.difficultySleeping, r.severity, r.verified]
  }

  /** The row a twelve-cell CSV line holds. */
  function FromCells(c: seq<string>): Row
    requires |c| == 12
  {
    Row(c[0], c[1], c[2], c[3], c[4], c[5], c[6], c[7], c[8], c[9], c[10], c[11])
  }

  /** Writing a row and reading it back gives the same row, and each cell sits
      under its own header. */
  lemma CellsRoundTrip(r: Row, c: seq<string>)
    ensures FromCells(Cells(r)) == r
    ensures |c| == 12 ==> Cells(FromCells(c)) == c
    ensures ReportHeaders[0] == "report_id" && Cells(r)[0] == r.reportId
    ensures ReportHeaders[10] == "severity" && Cells(r)[10] == r.severity
    ensures ReportHeaders[11] == "verified" && Cells(r)[11] == r.verified
    ensures ReportHeaders[5..10] == SymptomColumns
  {
  }

  /** `str` of a Python bool, as the CSV writer stores it. */
  function BoolText(b: bool): string {
    if b then "True" else "False"
  }

  /** The decimal digits of a natural number. */
  function Decimal(n: nat): (s: string)
    ensures |s| >= 1
    ensures forall i :: 0 <= i < |s| ==> '0' <= s[i] <= '9'
  {
    if n < 10 then [(n + 48) as char]
    else Decimal(n / 10) + [((n % 10) + 48) as char]
  }

  /** A number below `10^k` has at most `k` digits. */
  lemma {:induction false} DecimalLength(n: nat, k: nat, bound: nat)
    requires k >= 1 && bound == Pow10(k) && n < bound
    ensures |Decimal(n)| <= k
  {
    if n >= 10 {
      assert Pow10(1) == 10;
      assert k >= 2;
      assert n / 10 < Pow10(k - 1);
      DecimalLength(n / 10, k - 1, Pow10(k - 1));
    }
  }

  function Pow10(k: nat): (p: nat)
    ensures p >= 1
  {
    if k == 0 then 1 else 10 * Pow10(k - 1)
  }

  /** The request body of a report: each key that may be missing is optional;
      coordinates are kept as the text the file will hold. `symptoms` is the
      decoded JSON object's items, so only lists with distinct names
      correspond to a real request; with a repeated name the stored
      severity (every entry counted) and the stored flags (last entry wins)
      would disagree, which no request can produce. */
  datatype ReportData = ReportData(
    timestamp: Option<string>,
    userId: Option<string>,
    latitude: Option<string>,
    longitude: Option<string>,
    symptoms: Symptoms)

  /** `symptoms.get(name, False)`. */
  function SymptomFlag(symptoms: Symptoms, name: string): bool {
    var m := PairsToMap(symptoms);
    name in m && m[name]
  }

  /** `f"rep_{hash(timestamp + user_id) % 1000000}"`, given the hash value. */
  function ReportId(hashValue: int): (id: string)
    ensures |id| >= 5 && id[..4] == "rep_"
    ensures forall i :: 4 <= i < |id| ==> '0' <= id[i] <= '9'
  {
    "rep_" + Decimal(hashValue % 1000000)
  }

  /** The report id has at most six digits. */
  lemma ReportIdLength(hashValue: int)
    ensures |ReportId(hashValue)| <= 10
  {
    assert Pow10(6) == 1000000 by {
      assert Pow10(3) == 1000;
    }
    DecimalLength(hashValue % 1000000, 6, Pow10(6));
  }

  /** The row `save_report` appends, given the current time and the hash
      value of the id. */
  function NewRow(data: ReportData, now: string, hashValue: int, severity: Risk): (r: Row)
    ensures r.userId == data.userId.GetOr("anonymous")
    ensures r.timestamp == data.timestamp.GetOr(now)
    ensures r.latitude == data.latitude.GetOr("") && r.longitude == data.longitude.GetOr("")
    ensures r.verified == "False"
    ensures r.severity == RiskName(severity)
    ensures forall i :: 5 <= i < 10 ==>
      Cells(r)[i] == BoolText(SymptomFlag(data.symptoms, ReportHeaders[i]))
  {
    var timestamp := data.timestamp.GetOr(now);
    var userId := data.userId.GetOr("anonymous");
    Row(ReportId(hashValue), timestamp, userId, data.latitude.GetOr(""), data.longitude.GetOr(""),
        BoolText(SymptomFlag(data.symptoms, "wheezing")),
        BoolText(SymptomFlag(data.symptoms, "shortness_of_breath")),
        BoolText(SymptomFlag(data.symptoms, "chest_tightness")),
        BoolText(SymptomFlag(data.symptoms, "coughing")),
        BoolText(SymptomFlag(data.symptoms, "difficulty_sleeping")),
        RiskName(severity), "False")
  }

  /** A symptom missing from the request is stored as not present. */
  lemma MissingSymptomStoredFalse(data: ReportData, now: string, hashValue: int, severity: Risk, i: nat)
    requires 5 <= i < 10
    requires forall k :: 0 <= k < |data.symptoms| ==> data.symptoms[k].0 != ReportHeaders[i]
    ensures Cells(NewRow(data, now, hashValue, severity))[i] == "False"
  {
    PairsToMapKeys(data.symptoms, ReportHeaders[i]);
  }

  lemma PairsToMapKeys(pairs: Symptoms, name: string)
    requires forall k :: 0 <= k < |pairs| ==> pairs[k].0 != name
    ensures name !in PairsToMap(pairs)
  {
  }

  /** Python's list comprehension filter: the items satisfying `keep`, in order. */
  function Keep(rows: seq<Row>, keep: Row -> bool): (r: seq<Row>)
    ensures |r| <= |rows|
  {
    if |rows| == 0 then []
    else Keep(rows[..|rows| - 1], keep) + (if keep(rows[|rows| - 1]) then [rows[|rows| - 1]] else [])
  }

  /** A row is in the filtered list exactly when it is in the input and
      passes the test. */
  lemma {:induction false} KeepMembers(rows: seq<Row>, keep: Row -> bool, x: Row)
    ensures x in Keep(rows, keep) <==> x in rows && keep(x)
  {
    if |rows| > 0 {
      var n := |rows| - 1;
      KeepMembers(rows[..n], keep, x);
      assert rows == rows[..n] + [rows[n]];
    }
  }

  /** Filtering distributes over concatenation, so the rows kept keep their
      relative order. */
  lemma {:induction false} KeepAppend(a: seq<Row>, b: seq<Row>, keep: Row -> bool)
    ensures Keep(a + b, keep) == Keep(a, keep) + Keep(b, keep)
  {
    if |b| > 0 {
      var n := |b| - 1;
      assert (a + b)[..|a + b| - 1] == a + b[..n];
      KeepAppend(a, b[..n], keep);
    } else {
      assert a + b == a;
    }
  }

  /** `sqrt(d2) <= radius_km / 100`, stated without a square root. */
  predicate WithinRadius(d2: real, radiusKm: real) {
    radiusKm >= 0.0 && d2 <= (radiusKm / 100.0) * (radiusKm / 100.0)
  }

  /** The location test of one row: both coordinates parse and the squared
      distance is within the radius. */
  predicate NearRow(r: Row, latitude: real, longitude: real, radiusKm: real, parseFloat: string -> Option<real>) {
    match (parseFloat(r.latitude), parseFloat(r.longitude))
    case (Some(lat), Some(lon)) =>
      WithinRadius((lat - latitude) * (lat - latitude) + (lon - longitude) * (lon - longitude), radiusKm)
    case _ => false
  }

  /** The time-window test of one row: the timestamp parses and lies between
      the two bounds, both included. */
  predicate InWindow(r: Row, start: int, end: int, parseTime: string -> Option<int>) {
    parseTime(r.timestamp).Some? && start <= parseTime(r.timestamp).value <= end
  }

  /** Marking one row as verified when its id matches. */
  function MarkRow(r: Row, reportId: string): Row {
    if r.reportId == reportId then r.(verified := "True") else r
  }

  /** The rows after `verify_report`. */
  function MarkVerified(rows: seq<Row>, reportId: string): (r: seq<Row>)
    ensures |r| == |rows|
    ensures forall i :: 0 <= i < |rows| ==> r[i] == MarkRow(rows[i], reportId)
  {
    if |rows| == 0 then [] else MarkVerified(rows[..|rows| - 1], reportId) + [MarkRow(rows[|rows| - 1], reportId)]
  }

  /** Verification flags exactly the matching rows, changes no other cell,
      and doing it twice is doing it once. */
  lemma MarkVerifiedEffect(rows: seq<Row>, reportId: string)
    ensures forall i :: 0 <= i < |rows| && rows[i].reportId == reportId ==>
      MarkVerified(rows, reportId)[i] == rows[i].(verified := "True")
    ensures forall i :: 0 <= i < |rows| && rows[i].reportId != reportId ==>
      MarkVerified(rows, reportId)[i] == rows[i]
    ensures MarkVerified(MarkVerified(rows, reportId), reportId) == MarkVerified(rows, reportId)
    ensures (forall i :: 0 <= i < |rows| ==> rows[i].reportId != reportId) ==> MarkVerified(rows, reportId) == rows
  {
  }

  class SymptomDataCollector {
    const dataFile: string
    const headers: seq<string>
    /** The data rows of the file, in file order. */
    var rows: seq<Row>

    /** `__init__`: a missing file is created holding only the header line. */
    constructor (dataFile: string, existing: Option<seq<Row>>)
      ensures this.dataFile == dataFile && headers == ReportHeaders
      ensures rows == existing.GetOr([])
    {
      this.dataFile := dataFile;
      headers := ReportHeaders;
      rows := existing.GetOr([]);
    }

    /** `_calculate_severity`: the collector's own copy of the scoring loop. */
    method CalculateSeverity(symptoms: Symptoms) returns (r: Risk)
      ensures r == Tier(Score(symptoms))
      ensures DistinctKeys(symptoms) ==> r == Tier(ReferenceScore(PairsToMap(symptoms)))
    {
      var severityScore := 0;
      var i := 0;
      while i < |symptoms|
        invariant 0 <= i <= |symptoms|
        invariant severityScore == Score(symptoms[..i])
      {
        var (symptom, present) := symptoms[i];
        if present && symptom in SeverityMap {
          severityScore := severityScore + SeverityMap[symptom];
        }
        assert symptoms[..i + 1][..i] == symptoms[..i];
        i := i + 1;
      }
      assert symptoms[..i] == symptoms;
      if DistinctKeys(symptoms) {
        ScoreMatchesReference(symptoms);
      }
      if severityScore >= 5 {
        r := High;
      } else if severityScore >= 3 {
        r := Moderate;
      } else {
        r := Low;
      }
    }

    /** `save_report`: appends the new row and returns its id. */
    method SaveReport(data: ReportData, now: string, hashValue: int) returns (reportId: string)
      modifies this
      ensures rows == old(rows) + [NewRow(data, now, hashValue, Tier(Score(data.symptoms)))]
      ensures reportId == ReportId(hashValue)
    {
      var severity := CalculateSeverity(data.symptoms);
      var row := NewRow(data, now, hashValue, severity);
      rows := rows + [row];
      reportId := row.reportId;
    }

    /** `get_reports_by_location`: the rows whose coordinates parse and lie
        within `radius_km / 100` of the point, in file order. */
    method GetReportsByLocation(latitude: real, longitude: real, radiusKm: real, parseFloat: string -> Option<real>)
      returns (reports: seq<Row>)
      ensures reports == Keep(rows, r => NearRow(r, latitude, longitude, radiusKm, parseFloat))
    {
      reports := [];
      var i := 0;
      while i < |rows|
        invariant 0 <= i <= |rows|
        invariant reports == Keep(rows[..i], r => NearRow(r, latitude, longitude, radiusKm, parseFloat))
      {
        var row := rows[i];
        var repLat := parseFloat(row.latitude);
        var repLon := parseFloat(row.longitude);
        if repLat.Some? && repLon.Some? {
          var d2 := (repLat.value - latitude) * (repLat.value - latitude)
                  + (repLon.value - longitude) * (repLon.value - longitude);
          if WithinRadius(d2, radiusKm) {
            reports := reports + [row];
          }
        }
        assert rows[..i + 1][..i] == rows[..i];
        i := i + 1;
      }
      assert rows[..i] == rows;
    }

    /** `get_reports_by_timeframe`: the rows whose timestamp parses and lies
        between the two bounds (inclusive), in file order. */
    method GetReportsByTimeframe(start: int, end: int, parseTime: string -> Option<int>)
      returns (reports: seq<Row>)
      ensures reports == Keep(rows, r => InWindow(r, start, end, parseTime))
    {
      reports := [];
      var i := 0;
      while i < |rows|
        invariant 0 <= i <= |rows|
        invariant reports == Keep(rows[..i], r => InWindow(r, start, end, parseTime))
      {
        var row := rows[i];
        var reportTime := parseTime(row.timestamp);
        if reportTime.Some? && start <= reportTime.value <= end {
          reports := reports + [row];
        }
        assert rows[..i + 1][..i] == rows[..i];
        i := i + 1;
      }
      assert rows[..i] == rows;
    }

    /** `verify_report`: rewrites the file with the matching rows flagged and
        returns True, whether or not a row matched. */
    method VerifyReport(reportId: string) returns (ok: bool)
      modifies this
      ensures ok
      ensures rows == MarkVerified(old(rows), reportId)
    {
      var updated: seq<Row> := [];
      var i := 0;
      while i < |rows|
        invariant 0 <= i <= |rows|
        invariant updated == MarkVerified(rows[..i], reportId)
      {
        var row := rows[i];
        if row.reportId == reportId {
          row := row.(verified := "True");
        }
        updated := updated + [row];
        assert rows[..i + 1][..i] == rows[..i];
        i := i + 1;
      }
      assert rows[..i] == rows;
      rows := updated;
      ok := true;
    }
  }
}
