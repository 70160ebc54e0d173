/** `generate_full_report`: a sample report of a full permanent dentition in
    FDI two-digit numbering (ISO 3950). `random.random()` is the parameter
    `draws`, read by call number. */
module FullReport {
  import opened Wrappers
  import opened Text

  datatype Problem = Problem(id: string, toothDetectionId: string, problem: string, severity: string,
                             location: Option<string>, confidence: real, details: Option<string>)

  datatype Tooth = Tooth(toothId: string, toothNumber: nat, toothType: string, bbox: seq<int>,
                         confidence: real, problems: seq<Problem>)

  datatype PatientInfo = PatientInfo(patientId: string, name: string, age: nat, gender: string)
  datatype Statistics = Statistics(totalTeeth: nat, healthy: nat, unhealthy: nat, requiresAttention: bool)
  datatype Metadata = Metadata(reportType: string, version: string, note: string)
  datatype Report = Report(patientInfo: PatientInfo, teeth: seq<Tooth>, statistics: Statistics, metadata: Metadata)

  /** The quadrants the outer loop visits. */
  function Quadrants(): seq<nat> { [1, 2, 3, 4] }
  const Positions := 8
  /** One tooth per position of every quadrant. */
  function TotalTeeth(): nat { 8 * |Quadrants()| }

  /** `tooth_types`, indexed by position minus one. */
  function ToothTypes(): seq<string> {
    ["Central Incisor", "Lateral Incisor", "Canine", "First Premolar",
     "Second Premolar", "First Molar", "Second Molar", "Third Molar"]
  }

  /** The type of the tooth at position `i`. */
  function ToothType(i: nat): string
    requires 1 <= i <= 8
  {
    ToothTypes()[i - 1]
  }

  /** The fixed patient block and metadata of the sample. */
  function SamplePatient(): PatientInfo {
    PatientInfo("PAT-FULL-001", "Full Dentition Sample", 28, "Female")
  }
  function SampleMetadata(): Metadata {
    Metadata("cbct", "2.0", "Generated full dentition sample")
  }

  /** The problem kinds the generator writes. */
  function Caries(): string {
    "caries"
  }
  function Calculus(): string {
    "calculus"
  }
  function BoneLoss(): string {
    "bone_loss"
  }

  // ---------------------------------------------------------------- one tooth

  /** The simulated box: x grows with the position and is shifted for the
      upper-left and lower-left quadrants, y is shifted for the lower jaw. */
  function Bbox(quad: nat, i: nat): (b: seq<int>)
    ensures |b| == 4 && b[2] == 30 && b[3] == 40
    ensures b[0] == 100 + 20 * i + (if quad == 1 || quad == 4 then 0 else 200)
    ensures b[1] == (if quad == 3 || quad == 4 then 200 else 100)
  {
    [100 + i * 20 + (if quad == 1 || quad == 4 then 0 else 200),
     100 + (if quad == 3 || quad == 4 then 100 else 0),
     30,
     40]
  }

  function ProblemId(num: nat): string { "prob_" + DecimalString(num) + "_1" }
  function DetectionId(num: nat): string { "det_" + DecimalString(num) }

  /** The fixed finding on tooth 13. */
  function CariesProblem(num: nat): Problem {
    Problem(ProblemId(num), DetectionId(num), Caries(), "medium", Some("distal"), 0.88, Some("Example caries on Tooth 13"))
  }

  /** A random finding of the given kind. */
  function RandomProblem(num: nat, kind: string): Problem {
    Problem(ProblemId(num), DetectionId(num), kind, "low", None, 0.90, None)
  }

  /** The simulated detection confidence for a draw `d`. */
  function Confidence(d: real): (c: real)
    ensures 0.0 <= d < 1.0 ==> 0.95 <= c < 0.99
  {
    0.95 + d * 0.04
  }

  /** The problems of the tooth numbered `num` and the next draw to read,
      starting at draw `c`. */
  function ProblemsFor(num: nat, draws: nat -> real, c: nat): (r: (seq<Problem>, nat))
    ensures c < r.1 || num == 13
  {
    if num == 13 then ([CariesProblem(num)], c)
    else if draws(c) > 0.8 then
      var kind := if draws(c + 1) > 0.5 then Calculus() else BoneLoss();
      ([RandomProblem(num, kind)], c + 2)
    else ([], c + 1)
  }

  /** Tooth 13 gets the caries finding and reads no draw; any other tooth
      gets one problem exactly when its first draw exceeds 0.8, a calculus
      one when the second draw exceeds 0.5 and a bone-loss one otherwise. */
  lemma ProblemsForFacts(num: nat, draws: nat -> real, c: nat)
    ensures var r := ProblemsFor(num, draws, c);
            && |r.0| <= 1
            && (num == 13 ==> r == ([CariesProblem(num)], c))
            && (num != 13 ==> (|r.0| == 1 <==> draws(c) > 0.8) && r.1 == c + 1 + |r.0|)
            && (num != 13 && |r.0| == 1 ==>
                  r.0[0] == RandomProblem(num, if draws(c + 1) > 0.5 then Calculus() else BoneLoss()))
  {
  }

  /** The tooth at position `i` of quadrant `quad` and the next draw to read. */
  function ToothAt(quad: nat, i: nat, draws: nat -> real, c: nat): (r: (Tooth, nat))
    requires 1 <= i <= 8
    ensures c < r.1
  {
    var num := quad * 10 + i;
    var (problems, c1) := ProblemsFor(num, draws, c);
    (Tooth(DecimalString(num), num, ToothType(i), Bbox(quad, i), Confidence(draws(c1)), problems), c1 + 1)
  }

  /** Number quad*10+i and its decimal id, the type of the position, the
      simulated box, the problems, and a confidence drawn after them. */
  lemma ToothAtFacts(quad: nat, i: nat, draws: nat -> real, c: nat)
    requires 1 <= i <= 8
    ensures var r := ToothAt(quad, i, draws, c);
            && r.0.toothNumber == quad * 10 + i && r.0.toothId == DecimalString(r.0.toothNumber)
            && r.0.toothType == ToothType(i) && r.0.bbox == Bbox(quad, i)
            && r.0.problems == ProblemsFor(r.0.toothNumber, draws, c).0
            && r.0.confidence == Confidence(draws(ProblemsFor(r.0.toothNumber, draws, c).1))
            && r.1 == ProblemsFor(r.0.toothNumber, draws, c).1 + 1
  {
  }

  // ---------------------------------------------------------------- all teeth

  /** The k-th tooth appended (from 0): quadrant k / 8 + 1, position
      k % 8 + 1. */
  function NthTooth(k: nat, draws: nat -> real, c: nat): (r: (Tooth, nat))
    ensures c < r.1
  {
    ToothAt(k / 8 + 1, k % 8 + 1, draws, c)
  }

  /** The loop's list of quadrants holds 1..4 in order. */
  lemma QuadrantsAt(q: nat)
    requires q < |Quadrants()|
    ensures Quadrants()[q] == q + 1
  {
    if q == 0 {} else if q == 1 {} else if q == 2 {} else {}
  }

  /** The first `k` teeth the loops append, quadrant by quadrant and position
      by position, and the next draw to read. */
  function Built(draws: nat -> real, k: nat): (r: (seq<Tooth>, nat))
    ensures |r.0| == k
  {
    if k == 0 then ([], 0)
    else
      var prev := Built(draws, k - 1);
      var next := NthTooth(k - 1, draws, prev.1);
      (prev.0 + [next.0], next.1)
  }

  function CountHealthy(teeth: seq<Tooth>): nat {
    if |teeth| == 0 then 0
    else CountHealthy(teeth[..|teeth| - 1]) + (if |teeth[|teeth| - 1].problems| == 0 then 1 else 0)
  }

  function CountUnhealthy(teeth: seq<Tooth>): nat {
    if |teeth| == 0 then 0
    else CountUnhealthy(teeth[..|teeth| - 1]) + (if |teeth[|teeth| - 1].problems| != 0 then 1 else 0)
  }

  /** The 32 teeth of a run. */
  function Teeth(draws: nat -> real): seq<Tooth> {
    Built(draws, TotalTeeth()).0
  }

  /** The report around a list of teeth. */
  function ReportFor(teeth: seq<Tooth>): Report {
    Report(SamplePatient(), teeth, Statistics(32, CountHealthy(teeth), CountUnhealthy(teeth), true), SampleMetadata())
  }

  /** The report the function returns. */
  function FullReportOf(draws: nat -> real): Report {
    ReportFor(Teeth(draws))
  }

  // ---------------------------------------------------------------- the generator

  /** One pass of the inner loop: builds the tooth at position `i` of
      quadrant `quad`, reading draws from `calls` on. */
  method AppendTooth(teeth: seq<Tooth>, calls: nat, quad: nat, i: nat, draws: nat -> real)
    returns (teeth': seq<Tooth>, calls': nat)
    requires 1 <= i <= 8
    ensures var t := ToothAt(quad, i, draws, calls);
            teeth' == teeth + [t.0] && calls' == t.1
  {
    var num := quad * 10 + i;
    var toothType := ToothType(i);
    var bbox := [100 + i * 20 + (if quad == 1 || quad == 4 then 0 else 200),
                 100 + (if quad == 3 || quad == 4 then 100 else 0),
                 30,
                 40];
    var problems: seq<Problem> := [];
    calls' := calls;
    if num == 13 {
      problems := problems + [Problem(ProblemId(num), DetectionId(num), Caries(), "medium", Some("distal"), 0.88,
                                      Some("Example caries on Tooth 13"))];
      assert problems == [CariesProblem(num)];
    } else {
      var r := draws(calls');
      calls' := calls' + 1;
      if r > 0.8 {
        var kind := if draws(calls') > 0.5 then Calculus() else BoneLoss();
        calls' := calls' + 1;
        problems := problems + [Problem(ProblemId(num), DetectionId(num), kind, "low", None, 0.90, None)];
        assert problems == [Problem(ProblemId(num), DetectionId(num), kind, "low", None, 0.90, None)];
      }
    }
    assert (problems, calls') == ProblemsFor(num, draws, calls);
    var confidence := 0.95 + draws(calls') * 0.04;
    calls' := calls' + 1;
    teeth' := teeth + [Tooth(DecimalString(num), num, toothType, bbox, confidence, problems)];
  }

  lemma BuiltStep(draws: nat -> real, k: nat)
    ensures var prev := Built(draws, k);
            var next := NthTooth(k, draws, prev.1);
            Built(draws, k + 1) == (prev.0 + [next.0], next.1)
  {
  }

  lemma IndexSplit(q: nat, i: nat)
    requires 1 <= i <= 8
    ensures (8 * q + i - 1) / 8 == q && (8 * q + i - 1) % 8 == i - 1
  {
  }

  /** One step of the inner loop, read against the spec: appending the tooth
      at position `i` of the quadrant at index `q` extends a run of
      k = 8 * q + i - 1 teeth by one. */
  method AppendNth(teeth: seq<Tooth>, calls: nat, q: nat, i: nat, ghost k: nat, draws: nat -> real)
    returns (teeth': seq<Tooth>, calls': nat)
    requires q < |Quadrants()| && 1 <= i <= 8 && k == 8 * q + i - 1
    requires (teeth, calls) == Built(draws, k)
    ensures (teeth', calls') == Built(draws, k + 1)
  {
    var quad := Quadrants()[q];
    QuadrantsAt(q);
    IndexSplit(q, i);
    assert NthTooth(k, draws, calls) == ToothAt(quad, i, draws, calls);
    BuiltStep(draws, k);
    teeth', calls' := AppendTooth(teeth, calls, quad, i, draws);
  }

  /** `generate_full_report`: the quadrant loop around the position loop. */
  method GenerateFullReport(draws: nat -> real) returns (report: Report)
    ensures report == FullReportOf(draws)
  {
    var teeth: seq<Tooth> := [];
    var calls: nat := 0;
    ghost var n := 0;
    for q := 0 to |Quadrants()|
      invariant n == 8 * q
      invariant (teeth, calls) == Built(draws, n)
    {
      for i := 1 to 9
        invariant n == 8 * q + i - 1
        invariant (teeth, calls) == Built(draws, n)
      {
        teeth, calls := AppendNth(teeth, calls, q, i, n, draws);
        n := n + 1;
      }
    }
    var healthy := CountHealthy(teeth);
    var unhealthy := CountUnhealthy(teeth);
    report := Report(SamplePatient(), teeth, Statistics(32, healthy, unhealthy, true), SampleMetadata());
  }

  // ---------------------------------------------------------------- properties

  /** Every built tooth is the one its index names. */
  lemma {:induction false} BuiltAt(draws: nat -> real, k: nat, j: nat)
    requires j < k
    ensures Built(draws, k).0[j] == NthTooth(j, draws, Built(draws, j).1).0
    decreases k
  {
    BuiltStep(draws, k - 1);
    var prev := Built(draws, k - 1);
    var last := NthTooth(k - 1, draws, prev.1).0;
    assert Built(draws, k).0 == prev.0 + [last];
    if j < k - 1 {
      assert (prev.0 + [last])[j] == prev.0[j];
      BuiltAt(draws, k - 1, j);
    } else {
      assert (prev.0 + [last])[j] == last;
    }
  }

  /** The FDI number of the j-th tooth appended: quadrant digit, then position digit. */
  function FdiNumber(j: nat): nat {
    (j / 8 + 1) * 10 + j % 8 + 1
  }

  /** The FDI two-digit numbers of the permanent dentition. */
  predicate IsPermanentFdi(n: int) {
    1 <= n / 10 <= 4 && 1 <= n % 10 <= 8
  }

  /** The first 32 FDI numbers are the permanent teeth, increasing, and every
      permanent tooth is among them. */
  lemma FdiNumbering(a: nat, b: nat, n: int)
    ensures a < 32 ==> IsPermanentFdi(FdiNumber(a))
    ensures a < b ==> FdiNumber(a) < FdiNumber(b)
    ensures IsPermanentFdi(n) ==> var j := (n / 10 - 1) * 8 + n % 10 - 1; 0 <= j < 32 && FdiNumber(j) == n
  {
    if IsPermanentFdi(n) {
      var j := (n / 10 - 1) * 8 + n % 10 - 1;
      assert j / 8 == n / 10 - 1 && j % 8 == n % 10 - 1;
    }
  }

  /** The tooth at index `j` of a run is the j-th tooth appended. */
  lemma TeethAt(draws: nat -> real, j: nat)
    requires j < TotalTeeth()
    ensures Teeth(draws)[j] == NthTooth(j, draws, Built(draws, j).1).0
  {
    BuiltAt(draws, TotalTeeth(), j);
  }

  /** The j-th tooth appended, field by field. */
  lemma NthToothFacts(j: nat, draws: nat -> real, c: nat)
    ensures NthTooth(j, draws, c).0.toothNumber == FdiNumber(j)
    ensures NthTooth(j, draws, c).0.toothId == DecimalString(FdiNumber(j))
    ensures NthTooth(j, draws, c).0.toothType == ToothType(j % 8 + 1)
    ensures NthTooth(j, draws, c).0.bbox == Bbox(j / 8 + 1, j % 8 + 1)
    ensures NthTooth(j, draws, c).0.problems == ProblemsFor(FdiNumber(j), draws, c).0
    ensures NthTooth(j, draws, c).0.confidence == Confidence(draws(ProblemsFor(FdiNumber(j), draws, c).1))
  {
    ToothAtFacts(j / 8 + 1, j % 8 + 1, draws, c);
  }

  /** The number of the tooth at index `j`. */
  lemma ToothNumberAt(draws: nat -> real, j: nat)
    requires j < TotalTeeth()
    ensures Teeth(draws)[j].toothNumber == FdiNumber(j)
  {
    TeethAt(draws, j);
    NthToothFacts(j, draws, Built(draws, j).1);
  }

  /** The problems of the tooth at index `j`: the caries finding at index 2
      (tooth 13), at most one random finding elsewhere. */
  lemma ToothProblemsAt(draws: nat -> real, j: nat)
    requires j < TotalTeeth()
    ensures var t := Teeth(draws)[j];
            && |t.problems| <= 1
            && (j == 2 ==> t.toothNumber == 13 && t.problems == [CariesProblem(13)])
            && (j != 2 ==> t.toothNumber != 13)
            && (j != 2 && |t.problems| == 1 ==>
                  && t.problems[0] == RandomProblem(t.toothNumber, t.problems[0].problem)
                  && t.problems[0].problem in {Calculus(), BoneLoss()})
  {
    var c := Built(draws, j).1;
    TeethAt(draws, j);
    NthToothFacts(j, draws, c);
    ProblemsForFacts(FdiNumber(j), draws, c);
    if j != 2 {
      FdiNumbering(j, 2, 0);
      FdiNumbering(2, j, 0);
    }
  }

  /** The confidence of the tooth at index `j`, for draws in [0, 1). */
  lemma ToothConfidenceAt(draws: nat -> real, j: nat)
    requires forall n :: 0.0 <= draws(n) < 1.0
    requires j < TotalTeeth()
    ensures 0.95 <= Teeth(draws)[j].confidence < 0.99
  {
    TeethAt(draws, j);
    NthToothFacts(j, draws, Built(draws, j).1);
  }

  /** 32 teeth, quadrant by quadrant and position by position: number
      quad*10+i, the type of the position, the simulated box. */
  lemma FullReportTeeth(draws: nat -> real)
    ensures var teeth := Teeth(draws);
            && |teeth| == 32
            && (forall j | 0 <= j < |teeth| ::
                  && teeth[j].toothNumber == (j / 8 + 1) * 10 + j % 8 + 1
                  && teeth[j].toothId == DecimalString(teeth[j].toothNumber)
                  && teeth[j].toothType == ToothType(j % 8 + 1)
                  && teeth[j].bbox == Bbox(j / 8 + 1, j % 8 + 1))
  {
    var teeth := Teeth(draws);
    forall j | 0 <= j < |teeth|
      ensures teeth[j].toothNumber == (j / 8 + 1) * 10 + j % 8 + 1
      ensures teeth[j].toothId == DecimalString(teeth[j].toothNumber)
      ensures teeth[j].toothType == ToothType(j % 8 + 1)
      ensures teeth[j].bbox == Bbox(j / 8 + 1, j % 8 + 1)
    {
      TeethAt(draws, j);
      NthToothFacts(j, draws, Built(draws, j).1);
    }
  }

  /** Every number is an FDI permanent tooth, and the numbers increase, so
      each tooth appears once. */
  lemma FullReportNumbering(draws: nat -> real)
    ensures forall j | 0 <= j < |Teeth(draws)| :: IsPermanentFdi(Teeth(draws)[j].toothNumber)
    ensures forall a, b | 0 <= a < b < |Teeth(draws)| :: Teeth(draws)[a].toothNumber < Teeth(draws)[b].toothNumber
  {
    forall j | 0 <= j < |Teeth(draws)|
      ensures IsPermanentFdi(Teeth(draws)[j].toothNumber)
    {
      ToothNumberAt(draws, j);
      FdiNumbering(j, j, 0);
    }
    forall a, b | 0 <= a < b < |Teeth(draws)|
      ensures Teeth(draws)[a].toothNumber < Teeth(draws)[b].toothNumber
    {
      ToothNumberAt(draws, a);
      ToothNumberAt(draws, b);
      FdiNumbering(a, b, 0);
    }
  }

  /** Every FDI permanent tooth is in the report. */
  lemma FullReportCoversDentition(draws: nat -> real, n: int)
    requires IsPermanentFdi(n)
    ensures exists j :: 0 <= j < |Teeth(draws)| && Teeth(draws)[j].toothNumber == n
  {
    FdiNumbering(0, 0, n);
    var j := (n / 10 - 1) * 8 + n % 10 - 1;
    ToothNumberAt(draws, j);
  }

  /** Tooth 13 carries exactly the fixed caries finding; every other tooth
      carries at most one problem, a random calculus or bone-loss one. */
  lemma FullReportProblems(draws: nat -> real)
    ensures var teeth := Teeth(draws);
            && teeth[2].toothNumber == 13 && teeth[2].problems == [CariesProblem(13)]
            && (forall j | 0 <= j < |teeth| && j != 2 ::
                  && teeth[j].toothNumber != 13
                  && |teeth[j].problems| <= 1
                  && (|teeth[j].problems| == 1 ==>
                        && teeth[j].problems[0] == RandomProblem(teeth[j].toothNumber, teeth[j].problems[0].problem)
                        && teeth[j].problems[0].problem in {Calculus(), BoneLoss()}))
  {
    var teeth := Teeth(draws);
    forall j | 0 <= j < |teeth|
      ensures |teeth[j].problems| <= 1
      ensures j == 2 ==> teeth[j].toothNumber == 13 && teeth[j].problems == [CariesProblem(13)]
      ensures j != 2 ==> teeth[j].toothNumber != 13
      ensures j != 2 && |teeth[j].problems| == 1 ==>
                && teeth[j].problems[0] == RandomProblem(teeth[j].toothNumber, teeth[j].problems[0].problem)
                && teeth[j].problems[0].problem in {Calculus(), BoneLoss()}
    {
      ToothProblemsAt(draws, j);
    }
  }

  /** The two kinds of finding, as the generator writes them. */
  lemma ProblemRecords(num: nat, kind: string)
    ensures var p := CariesProblem(num);
            p.problem == Caries() && p.severity == "medium" && p.location == Some("distal") && p.confidence == 0.88
    ensures var p := RandomProblem(num, kind);
            p.problem == kind && p.severity == "low" && p.location.None? && p.confidence == 0.90
    ensures CariesProblem(num).id == RandomProblem(num, kind).id == ProblemId(num)
  {
  }

  lemma {:induction false} HealthPartition(teeth: seq<Tooth>)
    ensures CountHealthy(teeth) + CountUnhealthy(teeth) == |teeth|
    decreases |teeth|
  {
    if |teeth| > 0 {
      HealthPartition(teeth[..|teeth| - 1]);
    }
  }

  /** A tooth with a problem counts as unhealthy. */
  lemma {:induction false} UnhealthyCounts(teeth: seq<Tooth>, j: nat)
    requires j < |teeth| && |teeth[j].problems| != 0
    ensures CountUnhealthy(teeth) >= 1
    decreases |teeth|
  {
    if j < |teeth| - 1 {
      assert teeth[..|teeth| - 1][j] == teeth[j];
      UnhealthyCounts(teeth[..|teeth| - 1], j);
    }
  }

  /** healthy + unhealthy == totalTeeth == 32, and tooth 13 makes at least
      one tooth unhealthy. */
  lemma FullReportStatistics(draws: nat -> real)
    ensures var r := FullReportOf(draws);
            && r.statistics.totalTeeth == 32
            && r.statistics.healthy + r.statistics.unhealthy == r.statistics.totalTeeth
            && r.statistics.unhealthy >= 1
            && r.statistics.requiresAttention
  {
    var teeth := Teeth(draws);
    HealthPartition(teeth);
    FullReportProblems(draws);
    UnhealthyCounts(teeth, 2);
  }

  /** With draws in [0, 1), every tooth confidence lies in [0.95, 0.99). */
  lemma FullReportConfidence(draws: nat -> real)
    requires forall n :: 0.0 <= draws(n) < 1.0
    ensures forall j | 0 <= j < |Teeth(draws)| :: 0.95 <= Teeth(draws)[j].confidence < 0.99
  {
    forall j | 0 <= j < |Teeth(draws)|
      ensures 0.95 <= Teeth(draws)[j].confidence < 0.99
    {
      ToothConfidenceAt(draws, j);
    }
  }
}
