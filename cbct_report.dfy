/** `generate_cbct_report_template`: the CBCT report, shaped like the
    panoramic one, built from whatever `ai_results` dictionary it is given.
    Every key of that dictionary and of its entries may be missing; the three
    `datetime.now()` calls are read from `clock`. */
module CbctReport {
  import opened Wrappers
  import opened Builtins
  import CbctAnalyzer

  // ---------------------------------------------------------------- inputs

  /** A `teeth_data` entry; `None` is a missing key. */
  datatype ToothData = ToothData(detectionId: Option<string>, toothClass: Option<string>,
                                 toothNumber: Option<string>, toothType: Option<string>,
                                 bbox: Option<seq<int>>, confidence: Option<real>)

  /** A `findings` entry; it is copied into the teeth as it is. */
  datatype Finding = Finding(toothDetectionId: Option<string>, toothNumber: Option<string>,
                             problem: Option<string>, confidence: Option<real>, severity: Option<string>)

  /** `ai_results`; `otherKeys` counts the keys the template does not read. */
  datatype AiResults = AiResults(teethData: Option<seq<ToothData>>, findings: Option<seq<Finding>>,
                                 dimensions: Option<seq<int>>, otherKeys: nat) {
    /** A dictionary is true when it has a key. */
    predicate Truthy() {
      teethData.Some? || findings.Some? || dimensions.Some? || otherKeys > 0
    }
  }

  /** `ai_results` given and true. */
  predicate HasResults(ai: Option<AiResults>) {
    ai.Some? && ai.value.Truthy()
  }

  /** The teeth and findings the template reads, `[]` without results. */
  function TeethData(ai: Option<AiResults>): seq<ToothData> {
    if HasResults(ai) then ai.value.teethData.GetOr([]) else []
  }

  function FindingsList(ai: Option<AiResults>): seq<Finding> {
    if HasResults(ai) then ai.value.findings.GetOr([]) else []
  }

  // ---------------------------------------------------------------- status and slice counts

  const NoAnalysis := "no_analysis"
  const Success := "success"
  const NoDetections := "no_detections"

  function AiStatus(ai: Option<AiResults>): (s: string)
    ensures !HasResults(ai) ==> s == NoAnalysis
    ensures HasResults(ai) ==> (s == Success <==> |TeethData(ai)| > 0)
    ensures HasResults(ai) ==> (s == NoDetections <==> |TeethData(ai)| == 0)
  {
    if !HasResults(ai) then NoAnalysis
    else if |TeethData(ai)| > 0 then Success
    else NoDetections
  }

  /** `slice_counts`: sagittal, coronal and axial. */
  datatype SliceCounts = SliceCounts(sagittal: int, coronal: int, axial: int)

  /** `dims[i] if len(dims) > i else 0`. */
  function DimAt(dims: seq<int>, i: nat): int {
    if |dims| > i then dims[i] else 0
  }

  function SliceCountsOf(ai: Option<AiResults>): SliceCounts {
    if !HasResults(ai) then SliceCounts(0, 0, 0)
    else
      var dims := ai.value.dimensions.GetOr([0, 0, 0]);
      SliceCounts(DimAt(dims, 0), DimAt(dims, 1), DimAt(dims, 2))
  }

  /** Without results, or without dimensions, every count is 0; with a
      dimension tuple, the counts are its first three entries, a missing
      entry counting 0. */
  lemma SliceCountsFacts(ai: Option<AiResults>)
    ensures (!HasResults(ai) || ai.value.dimensions.None?) ==> SliceCountsOf(ai) == SliceCounts(0, 0, 0)
    ensures HasResults(ai) && ai.value.dimensions.Some? ==>
              var d, c := ai.value.dimensions.value, SliceCountsOf(ai);
              && (|d| >= 3 ==> c == SliceCounts(d[0], d[1], d[2]))
              && (|d| == 2 ==> c == SliceCounts(d[0], d[1], 0))
              && (|d| == 1 ==> c == SliceCounts(d[0], 0, 0))
              && (|d| == 0 ==> c == SliceCounts(0, 0, 0))
  {
  }

  // ---------------------------------------------------------------- teeth

  /** A `teeth` entry. */
  datatype TeethEntry = TeethEntry(toothId: Option<string>, toothNumber: Option<string>, toothType: Option<string>,
                                   bbox: Option<seq<int>>, confidence: Option<real>, problems: seq<Finding>)

  /** The first k findings whose `tooth_detection_id` equals `id` (two missing
      keys are equal too). */
  function ProblemsOf(findings: seq<Finding>, id: Option<string>, k: nat): seq<Finding>
    requires k <= |findings|
  {
    if k == 0 then []
    else if findings[k - 1].toothDetectionId == id then ProblemsOf(findings, id, k - 1) + [findings[k - 1]]
    else ProblemsOf(findings, id, k - 1)
  }

  function Matching(findings: seq<Finding>, id: Option<string>): (t: seq<bool>)
    ensures |t| == |findings| && forall i | 0 <= i < |findings| :: t[i] == (findings[i].toothDetectionId == id)
  {
    seq(|findings|, i requires 0 <= i < |findings| => findings[i].toothDetectionId == id)
  }

  /** A tooth's problems are exactly the findings with its detection id, in
      findings order. */
  lemma {:induction false} ProblemsOfOrigins(findings: seq<Finding>, id: Option<string>, k: nat)
    requires k <= |findings|
    ensures var pos := Positions(Matching(findings, id), true, k);
            && |ProblemsOf(findings, id, k)| == |pos|
            && forall j | 0 <= j < |pos| :: pos[j] < k && ProblemsOf(findings, id, k)[j] == findings[pos[j]]
  {
    if k > 0 {
      ProblemsOfOrigins(findings, id, k - 1);
      var t := Matching(findings, id);
      if t[k - 1] {
        assert Positions(t, true, k) == Positions(t, true, k - 1) + [k - 1];
      }
    }
  }

  /** A finding is among a tooth's problems exactly when it carries the
      tooth's detection id. */
  lemma {:induction false} ProblemsOfMembers(findings: seq<Finding>, id: Option<string>, k: nat)
    requires k <= |findings|
    ensures forall f :: f in ProblemsOf(findings, id, k) <==> f in findings[..k] && f.toothDetectionId == id
  {
    if k > 0 {
      ProblemsOfMembers(findings, id, k - 1);
      assert findings[..k] == findings[..k - 1] + [findings[k - 1]];
    }
  }

  function EntryFor(t: ToothData, findings: seq<Finding>): TeethEntry {
    TeethEntry(t.toothClass, t.toothNumber, t.toothType, t.bbox, t.confidence,
               ProblemsOf(findings, t.detectionId, |findings|))
  }

  function TeethOf(teethData: seq<ToothData>, findings: seq<Finding>): (teeth: seq<TeethEntry>)
    ensures |teeth| == |teethData|
  {
    seq(|teethData|, i requires 0 <= i < |teethData| => EntryFor(teethData[i], findings))
  }

  /** The teeth loop. */
  method BuildTeeth(teethData: seq<ToothData>, findings: seq<Finding>) returns (teeth: seq<TeethEntry>)
    ensures teeth == TeethOf(teethData, findings)
  {
    teeth := [];
    for i := 0 to |teethData|
      invariant teeth == TeethOf(teethData[..i], findings)
    {
      assert teethData[..i + 1] == teethData[..i] + [teethData[i]];
      teeth := teeth + [EntryFor(teethData[i], findings)];
    }
    assert teethData[..|teethData|] == teethData;
  }

  /** One entry per tooth, in order: its class becomes `toothId`, its fields
      are copied, and its problems are the findings carrying its detection id. */
  lemma TeethFacts(teethData: seq<ToothData>, findings: seq<Finding>)
    ensures var teeth := TeethOf(teethData, findings);
            && |teeth| == |teethData|
            && forall i | 0 <= i < |teeth| ::
                 && teeth[i].toothId == teethData[i].toothClass
                 && teeth[i].toothNumber == teethData[i].toothNumber
                 && teeth[i].bbox == teethData[i].bbox
                 && forall f :: f in teeth[i].problems <==> f in findings && f.toothDetectionId == teethData[i].detectionId
  {
    assert findings[..|findings|] == findings;
    forall i | 0 <= i < |teethData| {
      ProblemsOfMembers(findings, teethData[i].detectionId, |findings|);
    }
  }

  // ---------------------------------------------------------------- statistics

  function CountHealthy(teeth: seq<TeethEntry>, k: nat): nat
    requires k <= |teeth|
  {
    if k == 0 then 0 else CountHealthy(teeth, k - 1) + (if |teeth[k - 1].problems| == 0 then 1 else 0)
  }

  function CountUnhealthy(teeth: seq<TeethEntry>, k: nat): nat
    requires k <= |teeth|
  {
    if k == 0 then 0 else CountUnhealthy(teeth, k - 1) + (if |teeth[k - 1].problems| > 0 then 1 else 0)
  }

  /** Every tooth is healthy or unhealthy, not both; some tooth is unhealthy
      exactly when one has a problem. */
  lemma {:induction false} HealthPartition(teeth: seq<TeethEntry>, k: nat)
    requires k <= |teeth|
    ensures CountHealthy(teeth, k) + CountUnhealthy(teeth, k) == k
    ensures CountUnhealthy(teeth, k) > 0 <==> exists i | 0 <= i < k :: |teeth[i].problems| > 0
  {
    if k > 0 {
      HealthPartition(teeth, k - 1);
    }
  }

  /** `finding.get('problem', 'unknown')` for each finding. */
  function ProblemKeys(findings: seq<Finding>): (ks: seq<string>)
    ensures |ks| == |findings| && forall i | 0 <= i < |findings| :: ks[i] == findings[i].problem.GetOr("unknown")
  {
    seq(|findings|, i requires 0 <= i < |findings| => findings[i].problem.GetOr("unknown"))
  }

  /** `finding.get('severity', 'unknown')` for each finding. */
  function SeverityKeys(findings: seq<Finding>): (ks: seq<string>)
    ensures |ks| == |findings| && forall i | 0 <= i < |findings| :: ks[i] == findings[i].severity.GetOr("unknown")
  {
    seq(|findings|, i requires 0 <= i < |findings| => findings[i].severity.GetOr("unknown"))
  }

  /** The distribution loop. */
  method Distributions(findings: seq<Finding>) returns (problems: map<string, nat>, severities: map<string, nat>)
    ensures problems == Counts(ProblemKeys(findings), |findings|)
    ensures severities == Counts(SeverityKeys(findings), |findings|)
  {
    problems, severities := map[], map[];
    for i := 0 to |findings|
      invariant problems == Counts(ProblemKeys(findings), i)
      invariant severities == Counts(SeverityKeys(findings), i)
    {
      var problem := findings[i].problem.GetOr("unknown");
      var severity := findings[i].severity.GetOr("unknown");
      problems := problems[problem := Get(problems, problem) + 1];
      severities := severities[severity := Get(severities, severity) + 1];
    }
  }

  /** Each distribution counts every finding once, a missing key as
      "unknown", so it sums to the number of findings. */
  lemma DistributionFacts(findings: seq<Finding>)
    ensures var p, s := Counts(ProblemKeys(findings), |findings|), Counts(SeverityKeys(findings), |findings|);
            && (forall c :: Get(p, c) == Occurrences(ProblemKeys(findings), c, |findings|))
            && (forall c :: Get(s, c) == Occurrences(SeverityKeys(findings), c, |findings|))
            && SumOver(Distinct(ProblemKeys(findings), |findings|), p) == |findings|
            && SumOver(Distinct(SeverityKeys(findings), |findings|), s) == |findings|
            && (forall c :: c in p <==> c in Distinct(ProblemKeys(findings), |findings|))
            && (forall c :: c in s <==> c in Distinct(SeverityKeys(findings), |findings|))
  {
    CountsFacts(ProblemKeys(findings), |findings|);
    CountsFacts(SeverityKeys(findings), |findings|);
    CountsTotal(ProblemKeys(findings), |findings|);
    CountsTotal(SeverityKeys(findings), |findings|);
    CountsKeys(ProblemKeys(findings), |findings|);
    CountsKeys(SeverityKeys(findings), |findings|);
  }

  // ---------------------------------------------------------------- the report

  datatype Statistics = Statistics(totalTeeth: nat, healthy: nat, unhealthy: nat, treated: nat, missing: nat,
                                   problemsDistribution: map<string, nat>,
                                   severityDistribution: map<string, nat>, requiresAttention: bool)

  datatype ScanInfo = ScanInfo(device: string, scanDate: string, scanType: string, imageFormat: string,
                               x: int, y: int, z: int)

  datatype AiAnalysis = AiAnalysis(segmentationModel: string, detectionModels: seq<string>, analysisDate: string,
                                   processingTime: int, confidence: int, status: string)

  datatype Metadata = Metadata(reportId: string, reportType: string, clinicId: string, generatedBy: string,
                               version: string, lastUpdated: string, sliceCount: SliceCounts)

  /** The report; `P` is whatever `patient_info.get('info', {})` holds. */
  datatype Report<P> = Report(patientId: string, info: P, teeth: seq<TeethEntry>, statistics: Statistics,
                              scanInfo: ScanInfo, aiAnalysis: AiAnalysis, conclusion: string,
                              conclusionUpdatedAt: Option<string>, metadata: Metadata)

  function StatisticsOf(teeth: seq<TeethEntry>, findings: seq<Finding>, totalTeeth: nat): Statistics {
    var unhealthy := CountUnhealthy(teeth, |teeth|);
    Statistics(totalTeeth, CountHealthy(teeth, |teeth|), unhealthy, 0, 0,
               Counts(ProblemKeys(findings), |findings|), Counts(SeverityKeys(findings), |findings|), unhealthy > 0)
  }

  /** The report, from its parts. */
  function Assemble<P>(ai: Option<AiResults>, teeth: seq<TeethEntry>, stats: Statistics, info: P, clinicId: string,
                       patientId: string, reportId: string, clock: nat -> string): Report<P>
  {
    var c := SliceCountsOf(ai);
    Report(patientId, info, teeth, stats,
           ScanInfo("CBCT Scanner", clock(0), "cbct", "DICOM", c.sagittal, c.coronal, c.axial),
           AiAnalysis("", [], clock(1), 0, 0, AiStatus(ai)),
           "", None,
           Metadata(reportId, "cbct", clinicId, "CBCT AI Analysis System v2", "2.0", clock(2), c))
  }

  function ReportOf<P>(ai: Option<AiResults>, info: P, clinicId: string, patientId: string, reportId: string,
                       clock: nat -> string): Report<P>
  {
    var teeth := TeethOf(TeethData(ai), FindingsList(ai));
    Assemble(ai, teeth, StatisticsOf(teeth, FindingsList(ai), |TeethData(ai)|), info, clinicId, patientId,
             reportId, clock)
  }

  /** `generate_cbct_report_template`. */
  method GenerateCbctReportTemplate<P>(ai: Option<AiResults>, info: P, clinicId: string, patientId: string,
                                       reportId: string, clock: nat -> string) returns (r: Report<P>)
    ensures r == ReportOf(ai, info, clinicId, patientId, reportId, clock)
  {
    var teethData, findings := TeethData(ai), FindingsList(ai);
    var teeth := BuildTeeth(teethData, findings);
    var problems, severities := Distributions(findings);
    var unhealthy := CountUnhealthy(teeth, |teeth|);
    var stats := Statistics(|teethData|, CountHealthy(teeth, |teeth|), unhealthy, 0, 0, problems, severities,
                            unhealthy > 0);
    r := Assemble(ai, teeth, stats, info, clinicId, patientId, reportId, clock);
  }

  /** What the report promises: no results means no teeth, no findings,
      "no_analysis" and zero slice counts; one entry per tooth; healthy and
      unhealthy teeth partition the teeth and attention is asked for exactly
      when a tooth has a problem; the distributions each sum to the number of
      findings; the scan dimensions and `slice_count` are the same counts. */
  lemma ReportFacts<P>(ai: Option<AiResults>, info: P, clinicId: string, patientId: string, reportId: string,
                       clock: nat -> string)
    ensures var r := ReportOf(ai, info, clinicId, patientId, reportId, clock);
            var s := r.statistics;
            && (!HasResults(ai) ==>
                  r.teeth == [] && s.totalTeeth == 0 && r.aiAnalysis.status == NoAnalysis
                  && r.metadata.sliceCount == SliceCounts(0, 0, 0))
            && |r.teeth| == s.totalTeeth == |TeethData(ai)|
            && s.healthy + s.unhealthy == |r.teeth|
            && (s.requiresAttention <==> exists i | 0 <= i < |r.teeth| :: |r.teeth[i].problems| > 0)
            && SumOver(Distinct(ProblemKeys(FindingsList(ai)), |FindingsList(ai)|), s.problemsDistribution)
               == |FindingsList(ai)|
            && SumOver(Distinct(SeverityKeys(FindingsList(ai)), |FindingsList(ai)|), s.severityDistribution)
               == |FindingsList(ai)|
            && r.scanInfo.x == r.metadata.sliceCount.sagittal
            && r.scanInfo.y == r.metadata.sliceCount.coronal
            && r.scanInfo.z == r.metadata.sliceCount.axial
            && r.metadata.reportType == "cbct" && r.metadata.clinicId == clinicId
  {
    var teeth := TeethOf(TeethData(ai), FindingsList(ai));
    HealthPartition(teeth, |teeth|);
    DistributionFacts(FindingsList(ai));
  }

  // ---------------------------------------------------------------- from the analyzer

  function FromSegment(s: CbctAnalyzer.Segment): ToothData {
    ToothData(Some(s.detectionId), Some(s.toothClass), Some(s.toothNumber), Some(s.toothType), None,
              Some(s.confidence))
  }

  function FromFinding(f: CbctAnalyzer.Finding): Finding {
    Finding(Some(f.toothDetectionId), Some(f.toothNumber), Some(f.problem), Some(f.confidence), Some(f.severity))
  }

  /** The analyzer's dictionary as the template reads it. Its segments carry
      their box under `bbox_3d`, which the template does not read. */
  function FromAnalysis(a: CbctAnalyzer.Analysis): AiResults {
    AiResults(Some(seq(|a.teethData|, i requires 0 <= i < |a.teethData| => FromSegment(a.teethData[i]))),
              Some(seq(|a.findings|, i requires 0 <= i < |a.findings| => FromFinding(a.findings[i]))),
              if a.dimensions.Some? then Some([a.dimensions.value.n0, a.dimensions.value.n1, a.dimensions.value.n2])
              else None,
              if a.summary.Some? then 3 else 2)
  }

  /** A failed analysis still yields a true dictionary: the report says
      "no_detections" rather than "no_analysis", with zero slice counts; a
      successful one takes its slice counts from the volume's shape, and no
      tooth of the report has a box. */
  lemma AnalyzerInReport<P>(a: CbctAnalyzer.Analysis, info: P, clinicId: string, patientId: string,
                            reportId: string, clock: nat -> string)
    requires a.totalTeeth == |a.teethData|
    ensures var r := ReportOf(Some(FromAnalysis(a)), info, clinicId, patientId, reportId, clock);
            && (a.dimensions.None? && a.teethData == [] ==>
                  r.aiAnalysis.status == NoDetections && r.metadata.sliceCount == SliceCounts(0, 0, 0))
            && (a.dimensions.Some? ==>
                  r.metadata.sliceCount
                  == SliceCounts(a.dimensions.value.n0, a.dimensions.value.n1, a.dimensions.value.n2))
            && |r.teeth| == a.totalTeeth
            && forall i | 0 <= i < |r.teeth| :: r.teeth[i].bbox.None?
  {
  }
}
