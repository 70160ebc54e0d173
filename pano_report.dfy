/** The panoramic report builder: one report entry per segmented tooth (its
    number, category, anatomy defaults and problems), the statistics over the
    entries, and the assembled report. The analysis results arrive as
    dictionaries, so fields may be missing; `now` stands for
    `datetime.now().isoformat()`. */
module PanoReport {
  import opened Wrappers
  import opened Text
  import opened Builtins
  import PanoAnalyzer

  /** A dictionary value where the source accepts several kinds. */
  datatype Value = Str(s: string) | Int(i: int) | Float(r: real) | Null

  predicate Truthy(v: Value) {
    match v
    case Str(s) => s != []
    case Int(i) => i != 0
    case Float(r) => r != 0.0
    case Null => false
  }

  /** An entry of `teeth_data`. `toothNumber` is `Null` when the key is absent
      and `toothClass` is `None` when it is. */
  datatype ToothData = ToothData(detectionId: string, toothNumber: Value, toothClass: Option<Value>,
                                 toothType: Option<string>, box: PanoAnalyzer.Box, confidence: real)

  /** An entry of `findings`, every key but `problem` optional. */
  datatype RawProblem = RawProblem(toothDetectionId: Option<string>, problem: string, severity: Option<string>,
                                   confidence: Option<real>, description: Option<string>,
                                   detectedBy: Option<string>, bbox: Option<seq<real>>)

  // ---------------------------------------------------------------- tooth numbers

  const NoneToInt := "int() argument must be a string, a bytes-like object or a real number, not 'NoneType'"

  /** `clean_tooth_num`: a string gives its first run of digits as a number,
      or 0 when it has none; a number is truncated by `int`; `None` raises. */
  function CleanToothNum(v: Value): (r: Result<int>)
    ensures r.Err? <==> v.Null?
    ensures v.Str? ==> r.value >= 0 && (r.value == 0 <== NoDigits(v.s))
  {
    match v
    case Str(s) => ParseDecimalNonNegative(FirstDigitRun(s)); Ok(ParseDecimal(FirstDigitRun(s)))
    case Int(i) => Ok(i)
    case Float(r) => Ok(Truncate(r))
    case Null => Err(NoneToInt)
  }

  lemma {:induction false} ParseDecimalNonNegative(s: string)
    requires AllDigits(s)
    ensures ParseDecimal(s) >= 0
  {
    if s != [] {
      ParseDecimalNonNegative(s[..|s| - 1]);
    }
  }

  /** A class or number with a digit-free prefix reads as its number:
      "d15", "u3" and "15" all clean to their digits' value. */
  lemma CleanNumberAfterPrefix(prefix: string, n: nat)
    requires NoDigits(prefix)
    ensures CleanToothNum(Str(prefix + DecimalString(n))) == Ok(n)
  {
    FirstDigitRunOfNumber(prefix, n, []);
    assert prefix + DecimalString(n) + [] == prefix + DecimalString(n);
    ParseDecimalString(n);
  }

  /** `tooth_data.get('tooth_number') or tooth_data.get('tooth_class', '0')`. */
  function RawNumber(t: ToothData): (v: Value)
    ensures Truthy(t.toothNumber) ==> v == t.toothNumber
    ensures !Truthy(t.toothNumber) && t.toothClass.None? ==> v == Str("0")
  {
    if Truthy(t.toothNumber) then t.toothNumber else t.toothClass.GetOr(Str("0"))
  }

  // ---------------------------------------------------------------- problems of a tooth

  /** The findings among the first k attached to the detection `id`. */
  function ProblemsOf(findings: seq<RawProblem>, id: string, k: nat): seq<RawProblem>
    requires k <= |findings|
  {
    if k == 0 then []
    else if findings[k - 1].toothDetectionId == Some(id) then ProblemsOf(findings, id, k - 1) + [findings[k - 1]]
    else ProblemsOf(findings, id, k - 1)
  }

  function AttachedTo(findings: seq<RawProblem>, id: string): (t: seq<bool>)
    ensures |t| == |findings| && forall i | 0 <= i < |findings| :: t[i] == (findings[i].toothDetectionId == Some(id))
  {
    seq(|findings|, i requires 0 <= i < |findings| => findings[i].toothDetectionId == Some(id))
  }

  /** A tooth's problems are exactly the findings with its detection id, in
      findings order (see `PositionsMembers` and `PositionsIncreasing`). */
  lemma {:induction false} ProblemsOfOrigins(findings: seq<RawProblem>, id: string, k: nat)
    requires k <= |findings|
    ensures var pos := Positions(AttachedTo(findings, id), true, k);
            && |ProblemsOf(findings, id, k)| == |pos|
            && forall j | 0 <= j < |pos| :: pos[j] < k && ProblemsOf(findings, id, k)[j] == findings[pos[j]]
  {
    if k > 0 {
      ProblemsOfOrigins(findings, id, k - 1);
      var t := AttachedTo(findings, id);
      if t[k - 1] {
        assert Positions(t, true, k) == Positions(t, true, k - 1) + [k - 1];
      }
    }
  }

  // ---------------------------------------------------------------- category and anatomy

  datatype Category = Healthy | Treated | Unhealthy {
    function Name(): string {
      match this
      case Healthy => "Healthy"
      case Treated => "Treated"
      case Unhealthy => "Unhealthy"
    }

    /** How serious the category is. */
    function Rank(): nat {
      match this
      case Healthy => 0
      case Treated => 1
      case Unhealthy => 2
    }
  }

  const Pathologies: seq<string> := ["caries", "infection", "periapical"]
  const Restorations: seq<string> := ["fillings", "root_canal", "implant", "bridge", "crown"]

  /** Some problem's lower-cased name is among `names`. */
  predicate AnyProblemIn(problems: seq<RawProblem>, names: seq<string>) {
    exists i | 0 <= i < |problems| :: Lower(problems[i].problem) in names
  }

  /** A pathology makes a tooth unhealthy; otherwise a restoration makes it
      treated; otherwise it is healthy. */
  function CategoryOf(problems: seq<RawProblem>): (c: Category)
    ensures c == Healthy <==> !AnyProblemIn(problems, Pathologies + Restorations)
  {
    if AnyProblemIn(problems, Pathologies) then Unhealthy
    else if AnyProblemIn(problems, Restorations) then Treated
    else (
      assert !AnyProblemIn(problems, Pathologies + Restorations) by {
        forall i | 0 <= i < |problems| ensures Lower(problems[i].problem) !in Pathologies + Restorations {
          assert Lower(problems[i].problem) !in Pathologies && Lower(problems[i].problem) !in Restorations;
        }
      }
      Healthy)
  }

  /** More problems never make a tooth look healthier. */
  lemma CategoryMonotone(ps: seq<RawProblem>, qs: seq<RawProblem>)
    ensures CategoryOf(ps).Rank() <= CategoryOf(ps + qs).Rank()
  {
    if AnyProblemIn(ps, Pathologies) {
      var i :| 0 <= i < |ps| && Lower(ps[i].problem) in Pathologies;
      assert (ps + qs)[i] == ps[i];
    } else if AnyProblemIn(ps, Restorations) {
      var i :| 0 <= i < |ps| && Lower(ps[i].problem) in Restorations;
      assert (ps + qs)[i] == ps[i];
    }
  }

  /** The category ignores the case of the problem names. */
  lemma CategoryIgnoresCase(ps: seq<RawProblem>, qs: seq<RawProblem>)
    requires |ps| == |qs| && forall i | 0 <= i < |ps| :: Lower(ps[i].problem) == Lower(qs[i].problem)
    ensures CategoryOf(ps) == CategoryOf(qs)
  {
  }

  const Molars: seq<int> := [1, 2, 3, 14, 15, 16, 17, 18, 31, 32]
  const Premolars: seq<int> := [4, 5, 12, 13, 20, 21, 28, 29]

  /** The default numbers of roots and canals for a tooth number. */
  function RootsAndCanals(n: int): (rc: (nat, nat))
    ensures 1 <= rc.0 <= rc.1 <= 3
    ensures rc.0 == 3 <==> n in Molars
    ensures rc.1 == 2 <==> n in Premolars
  {
    if n in Molars then (3, 3) else if n in Premolars then (1, 2) else (1, 1)
  }

  /** The numbers the molar and premolar lists share: none, so the table is
      well defined whichever list is tested first. */
  lemma ToothListsDisjoint()
    ensures forall n | n in Molars :: n !in Premolars
  {
  }

  // ---------------------------------------------------------------- formatted problems

  datatype FormattedProblem = FormattedProblem(kind: string, severity: string, confidence: real,
                                               description: string, detectedBy: string,
                                               location: Option<seq<real>>, recommendation: string,
                                               urgency: string)

  /** `map_severity_to_urgency`. */
  function Urgency(severity: string): (u: string)
    ensures u == "low" || u == "medium" || u == "urgent"
    ensures u == "low" <==> severity == "low"
    ensures u == "urgent" <==> severity == "high"
  {
    if severity == "low" then "low"
    else if severity == "medium" then "medium"
    else if severity == "high" then "urgent"
    else "medium"
  }

  /** One formatted problem: severity "low", confidence 1.0, description
      "Detected <problem>" and detector "AI Analyzer" when absent. */
  function FormatProblem(p: RawProblem): (f: FormattedProblem)
    ensures f.kind == p.problem && f.location == p.bbox
    ensures f.urgency == Urgency(f.severity)
  {
    var severity := p.severity.GetOr("low");
    FormattedProblem(p.problem, severity, p.confidence.GetOr(1.0),
                     p.description.GetOr("Detected " + p.problem), p.detectedBy.GetOr("AI Analyzer"),
                     p.bbox, "Clinical validation required.", Urgency(severity))
  }

  /** A problem without severity is of low urgency, one without confidence
      is fully confident. */
  lemma FormatDefaults(p: RawProblem)
    ensures p.severity.None? ==> FormatProblem(p).severity == "low" && FormatProblem(p).urgency == "low"
    ensures p.confidence.None? ==> FormatProblem(p).confidence == 1.0
    ensures p.severity == Some("high") ==> FormatProblem(p).urgency == "urgent"
  {
  }

  function Formatted(problems: seq<RawProblem>): (fs: seq<FormattedProblem>)
    ensures |fs| == |problems| && forall i | 0 <= i < |problems| :: fs[i] == FormatProblem(problems[i])
  {
    seq(|problems|, i requires 0 <= i < |problems| => FormatProblem(problems[i]))
  }

  /** `format_problems`: one entry per problem, in order. */
  method FormatProblems(problems: seq<RawProblem>) returns (formatted: seq<FormattedProblem>)
    ensures formatted == Formatted(problems)
  {
    formatted := [];
    for i := 0 to |problems|
      invariant |formatted| == i
      invariant forall j | 0 <= j < i :: formatted[j] == FormatProblem(problems[j])
    {
      formatted := formatted + [FormatProblem(problems[i])];
    }
  }

  // ---------------------------------------------------------------- the teeth list

  /** An entry of `teeth_list`; `status` repeats the category, and the
      constant fields (`gumHealth`, `note`, `Root`, `approved`) are left out. */
  datatype ToothEntry = ToothEntry(toothNumber: int, toothType: string, category: Category,
                                   position: (real, real), box: PanoAnalyzer.Box, detectionConfidence: real,
                                   detectionId: string, problems: seq<FormattedProblem>, lastCheckup: string,
                                   noteContent: string, roots: nat, canals: nat, endo: bool, crown: bool)

  /** Some problem's lower-cased name is `name`. */
  predicate HasProblem(problems: seq<RawProblem>, name: string) {
    exists i | 0 <= i < |problems| :: Lower(problems[i].problem) == name
  }

  /** The entry for one tooth, or the error `clean_tooth_num` raises. */
  function Entry(t: ToothData, findings: seq<RawProblem>, now: string): (r: Result<ToothEntry>)
    ensures r.Err? <==> RawNumber(t).Null?
  {
    var num := CleanToothNum(RawNumber(t));
    if num.Err? then Err(num.message) else Ok(NumberedEntry(t, num.value, findings, now))
  }

  const NotePrefix := "AI automated detection completed. Category: "

  /** The note of an entry: the detection message with the category. */
  function NoteContent(c: Category): string {
    NotePrefix + c.Name()
  }

  /** The entry for a tooth whose number cleaned to n. */
  function NumberedEntry(t: ToothData, n: int, findings: seq<RawProblem>, now: string): ToothEntry {
    var problems := ProblemsOf(findings, t.detectionId, |findings|);
    var category := CategoryOf(problems);
    var rc := RootsAndCanals(n);
    ToothEntry(n, t.toothType.GetOr("unknown"), category, (t.box.x, t.box.y), t.box,
               t.confidence, t.detectionId, Formatted(problems), now,
               NoteContent(category), rc.0, rc.1,
               HasProblem(problems, "root_canal"), HasProblem(problems, "crown"))
  }

  /** The values of the first k results, or the first error among them: a
      loop that stops at the first exception. */
  function Collect<T>(rs: seq<Result<T>>, k: nat): (r: Result<seq<T>>)
    requires k <= |rs|
    ensures r.Ok? ==> |r.value| == k
  {
    if k == 0 then Ok([])
    else
      var prev := Collect(rs, k - 1);
      if prev.Err? then prev
      else if rs[k - 1].Err? then Err(rs[k - 1].message)
      else Ok(prev.value + [rs[k - 1].value])
  }

  lemma {:induction false} CollectFails<T>(rs: seq<Result<T>>, k: nat)
    requires k <= |rs|
    ensures Collect(rs, k).Err? <==> exists i | 0 <= i < k :: rs[i].Err?
  {
    if k > 0 {
      CollectFails(rs, k - 1);
    }
  }

  lemma {:induction false} CollectValues<T>(rs: seq<Result<T>>, k: nat)
    requires k <= |rs| && Collect(rs, k).Ok?
    ensures forall i | 0 <= i < k :: rs[i].Ok? && Collect(rs, k).value[i] == rs[i].value
  {
    if k > 0 {
      var prev := Collect(rs, k - 1);
      assert prev.Ok? && rs[k - 1].Ok?;
      CollectValues(rs, k - 1);
      assert Collect(rs, k).value == prev.value + [rs[k - 1].value];
    }
  }

  lemma {:induction false} CollectErrorSticks<T>(rs: seq<Result<T>>, j: nat, k: nat)
    requires 0 < j <= k <= |rs| && Collect(rs, j).Err?
    ensures Collect(rs, k) == Collect(rs, j)
    decreases k - j
  {
    if j < k {
      CollectErrorSticks(rs, j, k - 1);
    }
  }

  /** One more result: an error ends the collection with its message, a
      value is appended. */
  lemma CollectStep<T>(rs: seq<Result<T>>, k: nat, done: seq<T>)
    requires k < |rs| && Collect(rs, k) == Ok(done)
    ensures rs[k].Err? ==> Collect(rs, |rs|) == Err(rs[k].message)
    ensures rs[k].Ok? ==> Collect(rs, k + 1) == Ok(done + [rs[k].value])
  {
    if rs[k].Err? {
      CollectErrorSticks(rs, k + 1, |rs|);
    }
  }

  /** The entry, or the error, of every tooth. */
  function Entries(teeth: seq<ToothData>, findings: seq<RawProblem>, now: string): (es: seq<Result<ToothEntry>>)
    ensures |es| == |teeth| && forall i | 0 <= i < |teeth| :: es[i] == Entry(teeth[i], findings, now)
  {
    seq(|teeth|, i requires 0 <= i < |teeth| => Entry(teeth[i], findings, now))
  }

  /** `build_teeth_list`, as a value. */
  function TeethList(teeth: seq<ToothData>, findings: seq<RawProblem>, now: string): (r: Result<seq<ToothEntry>>)
    ensures r.Ok? ==> |r.value| == |teeth|
  {
    Collect(Entries(teeth, findings, now), |teeth|)
  }

  /** The list fails exactly when some tooth has no usable number. */
  lemma TeethListFails(teeth: seq<ToothData>, findings: seq<RawProblem>, now: string)
    ensures TeethList(teeth, findings, now).Err? <==> exists i | 0 <= i < |teeth| :: RawNumber(teeth[i]).Null?
  {
    var es := Entries(teeth, findings, now);
    CollectFails(es, |teeth|);
    assert forall i | 0 <= i < |teeth| :: es[i].Err? <==> RawNumber(teeth[i]).Null?;
  }

  /** Otherwise the list has one entry per tooth, in order, each built from
      its own tooth. */
  lemma TeethListEntries(teeth: seq<ToothData>, findings: seq<RawProblem>, now: string)
    requires TeethList(teeth, findings, now).Ok?
    ensures forall i | 0 <= i < |teeth| ::
              Entry(teeth[i], findings, now).Ok? && TeethList(teeth, findings, now).value[i] == Entry(teeth[i], findings, now).value
  {
    CollectValues(Entries(teeth, findings, now), |teeth|);
  }

  /** What an entry holds: the cleaned number, the anatomy defaults for it,
      the category of the tooth's own problems and those problems formatted. */
  lemma EntryFacts(t: ToothData, findings: seq<RawProblem>, now: string)
    requires Entry(t, findings, now).Ok?
    ensures var e, problems := Entry(t, findings, now).value, ProblemsOf(findings, t.detectionId, |findings|);
            && Ok(e.toothNumber) == CleanToothNum(RawNumber(t))
            && (e.roots, e.canals) == RootsAndCanals(e.toothNumber)
            && e.category == CategoryOf(problems)
            && e.problems == Formatted(problems)
            && (e.endo <==> HasProblem(problems, "root_canal"))
            && (e.crown ==> e.category != Healthy)
            && e.detectionId == t.detectionId
  {
    var n := CleanToothNum(RawNumber(t)).value;
    assert Entry(t, findings, now).value == NumberedEntry(t, n, findings, now);
    CrownIsNotHealthy(ProblemsOf(findings, t.detectionId, |findings|));
  }

  /** A crown is a restoration, so a crowned tooth is never healthy. */
  lemma CrownIsNotHealthy(problems: seq<RawProblem>)
    ensures HasProblem(problems, "crown") ==> CategoryOf(problems) != Healthy
  {
    if HasProblem(problems, "crown") {
      var i :| 0 <= i < |problems| && Lower(problems[i].problem) == "crown";
      assert Lower(problems[i].problem) in Pathologies + Restorations;
    }
  }

  /** The body of the `build_teeth_list` loop: the entry of one tooth, or
      the error `clean_tooth_num` raises. */
  method BuildEntry(t: ToothData, findings: seq<RawProblem>, now: string) returns (r: Result<ToothEntry>)
    ensures r == Entry(t, findings, now)
  {
    var num := CleanToothNum(RawNumber(t));
    if num.Err? {
      return Err(num.message);
    }
    var problems := ProblemsOf(findings, t.detectionId, |findings|);
    var formatted := FormatProblems(problems);
    var category := CategoryOf(problems);
    var (roots, canals) := RootsAndCanals(num.value);
    r := Ok(ToothEntry(num.value, t.toothType.GetOr("unknown"), category, (t.box.x, t.box.y), t.box,
                       t.confidence, t.detectionId, formatted, now,
                       NoteContent(category), roots, canals,
                       HasProblem(problems, "root_canal"), HasProblem(problems, "crown")));
  }

  /** One iteration of the `build_teeth_list` loop: the list grows by the
      entry of tooth k, or the whole list fails with that tooth's error. */
  method NextEntry(teeth: seq<ToothData>, findings: seq<RawProblem>, now: string, k: nat, list: seq<ToothEntry>)
    returns (next: Result<seq<ToothEntry>>)
    requires k < |teeth| && Collect(Entries(teeth, findings, now), k) == Ok(list)
    ensures next.Ok? ==> Collect(Entries(teeth, findings, now), k + 1) == next
    ensures next.Err? ==> TeethList(teeth, findings, now) == next
  {
    var entry := BuildEntry(teeth[k], findings, now);
    CollectStep(Entries(teeth, findings, now), k, list);
    if entry.Err? {
      return Err(entry.message);
    }
    return Ok(list + [entry.value]);
  }

  /** `build_teeth_list`. */
  method BuildTeethList(teeth: seq<ToothData>, findings: seq<RawProblem>, now: string)
    returns (r: Result<seq<ToothEntry>>)
    ensures r == TeethList(teeth, findings, now)
  {
    var list: seq<ToothEntry> := [];
    for k := 0 to |teeth|
      invariant Collect(Entries(teeth, findings, now), k) == Ok(list)
    {
      var next := NextEntry(teeth, findings, now, k, list);
      if next.Err? {
        return next;
      }
      list := next.value;
    }
    r := Ok(list);
  }

  // ---------------------------------------------------------------- statistics

  /** How many of the first k entries have the category c. */
  function CountCategory(teeth: seq<ToothEntry>, c: Category, k: nat): nat
    requires k <= |teeth|
  {
    if k == 0 then 0 else CountCategory(teeth, c, k - 1) + (if teeth[k - 1].category == c then 1 else 0)
  }

  /** How many of the first k entries have an active caries. */
  function CountCaries(teeth: seq<ToothEntry>, k: nat): (n: nat)
    requires k <= |teeth|
    ensures n <= k
  {
    if k == 0 then 0
    else
      var t := teeth[k - 1];
      CountCaries(teeth, k - 1)
      + (if exists j | 0 <= j < |t.problems| :: Lower(t.problems[j].kind) == "caries" then 1 else 0)
  }

  datatype Statistics = Statistics(totalTeeth: nat, healthy: nat, unhealthy: nat, treated: nat, missing: int,
                                   activeCaries: nat, problemsDistribution: map<string, nat>,
                                   severityDistribution: map<string, nat>, requiresAttention: bool)

  /** `build_statistics`; a missing summary (`{}`) gives empty distributions
      and no attention flag. */
  function BuildStatistics(teeth: seq<ToothEntry>, summary: Option<PanoAnalyzer.Summary>): Statistics {
    var unhealthy := CountCategory(teeth, Unhealthy, |teeth|);
    Statistics(|teeth|, CountCategory(teeth, Healthy, |teeth|), unhealthy, CountCategory(teeth, Treated, |teeth|),
               32 - |teeth|, CountCaries(teeth, |teeth|),
               if summary.Some? then summary.value.byType else map[],
               if summary.Some? then summary.value.bySeverity else map[],
               unhealthy > 0 || (summary.Some? && summary.value.requiresAttention))
  }

  /** Every entry has one of the three categories. */
  lemma {:induction false} CategoriesPartition(teeth: seq<ToothEntry>, k: nat)
    requires k <= |teeth|
    ensures CountCategory(teeth, Healthy, k) + CountCategory(teeth, Unhealthy, k) + CountCategory(teeth, Treated, k) == k
  {
    if k > 0 {
      CategoriesPartition(teeth, k - 1);
    }
  }

  /** The three categories add up to the number of teeth; `missing` is 32
      minus that number, negative above 32 teeth; attention is required when a
      tooth is unhealthy or the summary asks for it. */
  lemma StatisticsFacts(teeth: seq<ToothEntry>, summary: Option<PanoAnalyzer.Summary>)
    ensures var s := BuildStatistics(teeth, summary);
            && s.healthy + s.unhealthy + s.treated == s.totalTeeth == |teeth|
            && s.missing == 32 - |teeth|
            && (s.missing < 0 <==> |teeth| > 32)
            && s.activeCaries <= s.totalTeeth
            && (s.requiresAttention <==> s.unhealthy > 0 || (summary.Some? && summary.value.requiresAttention))
  {
    CategoriesPartition(teeth, |teeth|);
  }

  // ---------------------------------------------------------------- the report

  /** What `ai_results` holds: each key may be missing. */
  datatype AiResults = AiResults(teethData: Option<seq<ToothData>>, findings: Option<seq<RawProblem>>,
                                 summary: Option<PanoAnalyzer.Summary>)

  datatype Clinic = Clinic(clinicId: string, name: string, license: string, address: string)

  const DemoClinic := Clinic("DEMO-01", "Xdental Clinic", "AI-2024-X", "Digital Suite 101")

  datatype Metadata = Metadata(reportId: string, reportType: string, generatedBy: string, version: string,
                               lastUpdated: string, clinicInfo: Clinic)

  /** An entry of the detection configuration; its `name` key may be missing. */
  datatype DetectionModel = DetectionModel(name: Option<string>)

  /** The report's AI-analysis section. */
  datatype AiAnalysis = AiAnalysis(segmentationModel: string, detectionModels: seq<string>, analysisDate: string,
                                   processingTime: int, confidence: int, version: string)

  const AnalysisVersion := "2.1.0-enriched"

  /** What `str` gives for the `KeyError` of a detection entry without a name. */
  const MissingName := "'name'"

  /** The names of the first k detection models, or the error of the first
      one without a name. */
  function ModelNames(models: seq<DetectionModel>, k: nat): (r: Result<seq<string>>)
    requires k <= |models|
    ensures r.Ok? <==> forall i | 0 <= i < k :: models[i].name.Some?
    ensures r.Ok? ==> |r.value| == k && forall i | 0 <= i < k :: r.value[i] == models[i].name.value
    ensures r.Err? ==> r.message == MissingName
  {
    if k == 0 then Ok([])
    else
      var prev := ModelNames(models, k - 1);
      if prev.Err? then prev
      else if models[k - 1].name.None? then Err(MissingName)
      else Ok(prev.value + [models[k - 1].name.value])
  }

  /** `build_ai_analysis_info`: the segmentation model's path, or "unknown"
      when the configuration has none, and the name of every detection model in
      order; a detection entry without a name fails the whole section. */
  function BuildAiAnalysisInfo(segPath: Option<string>, models: seq<DetectionModel>, now: string): (r: Result<AiAnalysis>)
    ensures r.Ok? <==> forall i | 0 <= i < |models| :: models[i].name.Some?
    ensures r.Err? ==> r.message == MissingName
    ensures r.Ok? ==> && r.value.segmentationModel == (if segPath.Some? then segPath.value else "unknown")
                      && |r.value.detectionModels| == |models|
                      && (forall i | 0 <= i < |models| :: r.value.detectionModels[i] == models[i].name.value)
                      && r.value.analysisDate == now && r.value.processingTime == 0 && r.value.confidence == 0
                      && r.value.version == AnalysisVersion
  {
    var names := ModelNames(models, |models|);
    if names.Err? then Err(names.message)
    else Ok(AiAnalysis(segPath.GetOr("unknown"), names.value, now, 0, 0, AnalysisVersion))
  }

  /** The assembled report; `patientInfo` is passed through untouched. The scan
      section is constant apart from its timestamp and is left out. */
  datatype Report<P> = Report(patientInfo: P, teeth: seq<ToothEntry>, statistics: Statistics, aiAnalysis: AiAnalysis,
                              conclusion: string, conclusionUpdatedAt: string, metadata: Metadata)

  /** The fixed conclusion text. */
  const Conclusion := "Comprehensive AI analysis of panoramic radiograph completed. Please review detected pathologies and restorations."

  /** The report's metadata; a missing clinic takes the demo clinic. */
  function ReportMetadata(reportId: string, clinic: Option<Clinic>, now: string): (m: Metadata)
    ensures m.reportId == reportId && m.reportType == "pano" && m.lastUpdated == now
    ensures m.clinicInfo == if clinic.Some? then clinic.value else DemoClinic
  {
    Metadata(reportId, "pano", "AI Analysis System v2.1", "2.1", now, clinic.GetOr(DemoClinic))
  }

  /** `build_complete_report`; a missing clinic takes the demo clinic. The
      teeth list is built before the AI-analysis section, so its error comes
      first. */
  function BuildCompleteReport<P>(ai: AiResults, patient: P, reportId: string, segPath: Option<string>,
                                  models: seq<DetectionModel>, clinic: Option<Clinic>, now: string)
    : (r: Result<Report<P>>)
    ensures r.Ok? <==> TeethList(ai.teethData.GetOr([]), ai.findings.GetOr([]), now).Ok?
                       && BuildAiAnalysisInfo(segPath, models, now).Ok?
    ensures TeethList(ai.teethData.GetOr([]), ai.findings.GetOr([]), now).Err?
            ==> r == Err(TeethList(ai.teethData.GetOr([]), ai.findings.GetOr([]), now).message)
    ensures r.Err? && TeethList(ai.teethData.GetOr([]), ai.findings.GetOr([]), now).Ok? ==> r.message == MissingName
    ensures r.Ok? ==> r.value.metadata.reportId == reportId && r.value.metadata.reportType == "pano"
                      && r.value.patientInfo == patient
                      && r.value.statistics.totalTeeth == |ai.teethData.GetOr([])|
                      && r.value.aiAnalysis == BuildAiAnalysisInfo(segPath, models, now).value
  {
    var teeth := ai.teethData.GetOr([]);
    var list := TeethList(teeth, ai.findings.GetOr([]), now);
    var analysis := BuildAiAnalysisInfo(segPath, models, now);
    if list.Err? then Err(list.message)
    else if analysis.Err? then Err(analysis.message)
    else Ok(Assemble(patient, list.value, ai.summary, analysis.value, reportId, clinic, now))
  }

  /** The report around a built teeth list and AI-analysis section. */
  function Assemble<P>(patient: P, teeth: seq<ToothEntry>, summary: Option<PanoAnalyzer.Summary>, analysis: AiAnalysis,
                       reportId: string, clinic: Option<Clinic>, now: string): (r: Report<P>)
    ensures r.metadata.reportId == reportId && r.metadata.reportType == "pano"
    ensures r.patientInfo == patient
    ensures r.teeth == teeth
    ensures r.statistics.totalTeeth == |teeth|
    ensures r.aiAnalysis == analysis
  {
    Report(patient, teeth, BuildStatistics(teeth, summary), analysis, Conclusion, now,
           ReportMetadata(reportId, clinic, now))
  }

  // ---------------------------------------------------------------- from the analyzer

  /** A segment of `PanoAnalyzer` as the report reads it. */
  function FromSegment(s: PanoAnalyzer.Segment): ToothData {
    ToothData(s.detectionId, if s.toothNumber.Some? then Str(s.toothNumber.value) else Null,
              Some(Str(s.toothClass)), Some(s.toothType.Name()), s.box, s.confidence)
  }

  /** A finding of `PanoAnalyzer` as the report reads it. */
  function FromFinding(f: PanoAnalyzer.Finding): RawProblem {
    RawProblem(Some(f.toothDetectionId), f.problem, f.severity, Some(f.confidence), Some(f.description),
               Some(f.detectedBy), Some(f.bbox))
  }

  /** A tooth the segmentation model calls "d<n>" or "u<n>" gets number n in
      the report. */
  lemma AnalyzerNumberInReport(p: PanoAnalyzer.Prediction, jaw: char, n: nat)
    requires jaw == 'd' || jaw == 'u'
    requires p.cls == [jaw] + DecimalString(n)
    ensures CleanToothNum(RawNumber(FromSegment(PanoAnalyzer.ToSegment(p)))) == Ok(n)
  {
    DecimalStringDigits(n);
    PanoAnalyzer.ClassifyRoundTrip(jaw, DecimalString(n));
    var t := FromSegment(PanoAnalyzer.ToSegment(p));
    assert t.toothNumber == Str(DecimalString(n));
    CleanNumberAfterPrefix([], n);
    assert [] + DecimalString(n) == DecimalString(n);
  }
}
