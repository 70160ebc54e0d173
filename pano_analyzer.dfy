/** `PanoAIAnalyzer`, after inference: how the segmentation model's
    predictions become tooth segments (classification, then one segment per
    tooth class), how problem detections are attached to teeth under the two
    detection strategies, the summary of the findings and the crop box of a
    tooth. The model outputs and the image size are inputs. */
module PanoAnalyzer {
  import opened Wrappers
  import opened Text
  import opened Builtins

  /** A box given by its centre and its size, as YOLO's `xywh`. */
  datatype Box = Box(x: real, y: real, width: real, height: real)

  /** One prediction of the segmentation model. */
  datatype Prediction = Prediction(detectionId: string, cls: string, classId: int, box: Box, confidence: real)

  datatype ToothType = Lower | Upper | Bridge | Denture | Unknown {
    function Name(): string {
      match this
      case Lower => "lower"
      case Upper => "upper"
      case Bridge => "bridge"
      case Denture => "denture"
      case Unknown => "unknown"
    }
  }

  /** An entry of `teeth_segments`. */
  datatype Segment = Segment(detectionId: string, toothClass: string, toothType: ToothType,
                             toothNumber: Option<string>, classId: int, box: Box, confidence: real)

  // ---------------------------------------------------------------- classification

  /** The classification as written: a class starting with 'd' is a lower
      tooth and one starting with 'u' an upper tooth, numbered by the rest of
      the class; "b" is a bridge; the "de" test comes after the 'd' test. */
  function Classify(cls: string): (r: (ToothType, Option<string>))
    ensures r.1.Some? ==> (r.0 == Lower || r.0 == Upper) && |cls| > 1 && cls == [cls[0]] + r.1.value
    ensures r.0 == Bridge <==> cls == "b"
  {
    if StartsWith(cls, "d") then (Lower, if |cls| > 1 then Some(cls[1..]) else None)
    else if StartsWith(cls, "u") then (Upper, if |cls| > 1 then Some(cls[1..]) else None)
    else if cls == "b" then (Bridge, None)
    else if cls == "de" then (Denture, None)
    else (Unknown, None)
  }

  /** No class is ever classified as a denture: "de" starts with 'd' and is
      taken for lower tooth "e". */
  lemma DentureUnreachable(cls: string)
    ensures Classify(cls).0 != Denture
    ensures Classify("de") == (Lower, Some("e"))
  {
  }

  /** The classification with the "de" test before the 'd' test, so that the
      denture class is reachable. */
  function ClassifyFixed(cls: string): (r: (ToothType, Option<string>))
    ensures r.1.Some? ==> (r.0 == Lower || r.0 == Upper) && |cls| > 1 && cls == [cls[0]] + r.1.value
    ensures r.0 == Bridge <==> cls == "b"
    ensures r.0 == Denture <==> cls == "de"
  {
    if cls == "de" then (Denture, None)
    else if StartsWith(cls, "d") then (Lower, if |cls| > 1 then Some(cls[1..]) else None)
    else if StartsWith(cls, "u") then (Upper, if |cls| > 1 then Some(cls[1..]) else None)
    else if cls == "b" then (Bridge, None)
    else (Unknown, None)
  }

  /** The two classifications differ only on the denture class. */
  lemma FixedDiffersOnlyOnDenture(cls: string)
    ensures ClassifyFixed(cls) == Classify(cls) <==> cls != "de"
  {
  }

  /** The first letter decides: 'd' is lower and 'u' upper, numbered by the
      rest of the class or unnumbered when there is no rest; any other class
      but "b" is unknown. */
  lemma ClassifyRules(cls: string)
    ensures |cls| > 0 && cls[0] == 'd' ==> Classify(cls) == (Lower, if |cls| > 1 then Some(cls[1..]) else None)
    ensures |cls| > 0 && cls[0] == 'u' ==> Classify(cls) == (Upper, if |cls| > 1 then Some(cls[1..]) else None)
    ensures (|cls| == 0 || (cls[0] != 'd' && cls[0] != 'u')) && cls != "b" ==> Classify(cls) == (Unknown, None)
  {
  }

  /** A class written as a jaw letter and a decimal number is read back as
      that number, by either classification. */
  lemma ClassifyRoundTrip(jaw: char, n: string)
    requires jaw == 'd' || jaw == 'u'
    requires n != [] && AllDigits(n)
    ensures Classify([jaw] + n) == (if jaw == 'd' then Lower else Upper, Some(n))
    ensures ClassifyFixed([jaw] + n) == Classify([jaw] + n)
  {
    assert ([jaw] + n)[1..] == n;
    assert ([jaw] + n)[1] == n[0];
  }

  /** The segment of a prediction under the corrected classification. */
  function ToSegmentFixed(p: Prediction): (s: Segment)
    ensures s.detectionId == p.detectionId && s.toothClass == p.cls && s.confidence == p.confidence
    ensures (s.toothType, s.toothNumber) == ClassifyFixed(p.cls)
    ensures p.cls != "de" ==> s == ToSegment(p)
    ensures p.cls == "de" ==> s.toothType == Denture && ToSegment(p).toothType == Lower
  {
    var (t, n) := ClassifyFixed(p.cls);
    FixedDiffersOnlyOnDenture(p.cls);
    Segment(p.detectionId, p.cls, t, n, p.classId, p.box, p.confidence)
  }

  function ToSegment(p: Prediction): (s: Segment)
    ensures s.detectionId == p.detectionId && s.toothClass == p.cls && s.confidence == p.confidence
    ensures (s.toothType, s.toothNumber) == Classify(p.cls)
  {
    var (t, n) := Classify(p.cls);
    Segment(p.detectionId, p.cls, t, n, p.classId, p.box, p.confidence)
  }

  /** The parsing loop of `_segment_teeth`. */
  method ParseSegments(preds: seq<Prediction>) returns (segs: seq<Segment>)
    ensures |segs| == |preds|
    ensures forall i | 0 <= i < |preds| :: segs[i] == ToSegment(preds[i])
  {
    segs := [];
    for i := 0 to |preds|
      invariant |segs| == i
      invariant forall j | 0 <= j < i :: segs[j] == ToSegment(preds[j])
    {
      segs := segs + [ToSegment(preds[i])];
    }
  }

  // ---------------------------------------------------------------- one segment per class

  function Classes(segs: seq<Segment>): (cs: seq<string>)
    ensures |cs| == |segs| && forall i | 0 <= i < |segs| :: cs[i] == segs[i].toothClass
  {
    seq(|segs|, i requires 0 <= i < |segs| => segs[i].toothClass)
  }

  /** Which of the first k segments `unique_teeth` holds for each class: a
      segment replaces the held one only with a strictly higher confidence. */
  function Winners(segs: seq<Segment>, k: nat): (w: map<string, nat>)
    requires k <= |segs|
    ensures forall c | c in w :: w[c] < k
  {
    if k == 0 then map[]
    else
      var w := Winners(segs, k - 1);
      var s := segs[k - 1];
      if s.toothClass !in w || s.confidence > segs[w[s.toothClass]].confidence then w[s.toothClass := k - 1]
      else w
  }

  /** The classes held are exactly the classes seen. */
  lemma {:induction false} WinnersKeys(segs: seq<Segment>, k: nat)
    requires k <= |segs|
    ensures forall c :: c in Winners(segs, k) <==> c in Distinct(Classes(segs), k)
  {
    if k > 0 {
      WinnersKeys(segs, k - 1);
    }
  }

  /** Segment j is the one to hold for class c after the first k segments: it
      has class c and the highest confidence among them, and every earlier
      segment of class c has a strictly lower one. */
  predicate IsWinner(segs: seq<Segment>, k: nat, c: string, j: nat)
    requires k <= |segs|
  {
    && j < k && segs[j].toothClass == c
    && (forall i | 0 <= i < k && segs[i].toothClass == c :: segs[i].confidence <= segs[j].confidence)
    && (forall i | 0 <= i < j && segs[i].toothClass == c :: segs[i].confidence < segs[j].confidence)
  }

  /** The segment held for each class is the first of its most confident
      segments. */
  lemma {:induction false} WinnersBest(segs: seq<Segment>, k: nat)
    requires k <= |segs|
    ensures forall c | c in Winners(segs, k) :: IsWinner(segs, k, c, Winners(segs, k)[c])
  {
    if k > 0 {
      WinnersBest(segs, k - 1);
      forall c | c in Winners(segs, k) ensures IsWinner(segs, k, c, Winners(segs, k)[c]) {
        WinnerStep(segs, k, c);
      }
    }
  }

  lemma WinnerStep(segs: seq<Segment>, k: nat, c: string)
    requires 0 < k <= |segs| && c in Winners(segs, k)
    requires c in Winners(segs, k - 1) ==> IsWinner(segs, k - 1, c, Winners(segs, k - 1)[c])
    ensures IsWinner(segs, k, c, Winners(segs, k)[c])
  {
    var w := Winners(segs, k - 1);
    var c0 := segs[k - 1].toothClass;
    if c !in w {
      assert c == c0;
      FirstOfClass(segs, k - 1, c);
    }
  }

  /** A class not held yet has not been seen. */
  lemma FirstOfClass(segs: seq<Segment>, k: nat, c: string)
    requires k <= |segs| && c !in Winners(segs, k)
    ensures forall i | 0 <= i < k :: segs[i].toothClass != c
  {
    WinnersKeys(segs, k);
    DistinctFacts(Classes(segs), k);
    forall i | 0 <= i < k ensures segs[i].toothClass != c {
      assert Classes(segs)[i] in Distinct(Classes(segs), k);
    }
  }

  /** The index kept for each distinct class, in order of first appearance. */
  function KeptIndices(segs: seq<Segment>): (ks: seq<nat>)
    ensures |ks| == |Distinct(Classes(segs), |segs|)|
    ensures forall a | 0 <= a < |ks| :: ks[a] < |segs|
  {
    var order := Distinct(Classes(segs), |segs|);
    WinnersKeys(segs, |segs|);
    var w := Winners(segs, |segs|);
    seq(|order|, a requires 0 <= a < |order| => w[order[a]])
  }

  /** `list(unique_teeth.values())`. */
  function Dedup(segs: seq<Segment>): seq<Segment> {
    var ks := KeptIndices(segs);
    seq(|ks|, a requires 0 <= a < |ks| => segs[ks[a]])
  }

  /** Segment ks[a] is the one held for the a-th class seen. */
  lemma KeptAreWinners(segs: seq<Segment>)
    ensures var ks, order := KeptIndices(segs), Distinct(Classes(segs), |segs|);
            forall a | 0 <= a < |ks| :: IsWinner(segs, |segs|, order[a], ks[a])
  {
    WinnersKeys(segs, |segs|);
    WinnersBest(segs, |segs|);
    DistinctFacts(Classes(segs), |segs|);
  }

  /** After deduplication there is one segment per tooth class, every class
      is kept, and the classes come in order of first appearance. */
  lemma DedupClasses(segs: seq<Segment>)
    ensures var out, ks := Dedup(segs), KeptIndices(segs);
            && |out| == |ks|
            && (forall a | 0 <= a < |out| :: out[a] == segs[ks[a]])
            && (forall a, b | 0 <= a < b < |out| :: out[a].toothClass != out[b].toothClass)
            && (forall i | 0 <= i < |segs| :: segs[i].toothClass in Classes(out))
            && Classes(out) == Distinct(Classes(segs), |segs|)
  {
    var out := Dedup(segs);
    var order := Distinct(Classes(segs), |segs|);
    KeptAreWinners(segs);
    DistinctNoDuplicates(Classes(segs), |segs|);
    DistinctFacts(Classes(segs), |segs|);
    assert Classes(out) == order;
    forall i | 0 <= i < |segs| ensures segs[i].toothClass in Classes(out) {
      assert Classes(segs)[i] in order;
    }
  }

  /** Each kept segment is the first of the most confident segments of its
      class. */
  lemma DedupMostConfident(segs: seq<Segment>)
    ensures var out, ks := Dedup(segs), KeptIndices(segs);
            && (forall a, i | 0 <= a < |out| && 0 <= i < |segs| && segs[i].toothClass == out[a].toothClass ::
                  segs[i].confidence <= out[a].confidence)
            && (forall a, i | 0 <= a < |out| && 0 <= i < ks[a] && segs[i].toothClass == out[a].toothClass ::
                  segs[i].confidence < out[a].confidence)
  {
    KeptAreWinners(segs);
  }

  /** The dictionary `unique_teeth` and its key order after the first i
      segments. */
  ghost predicate Holds(segs: seq<Segment>, i: nat, best: map<string, Segment>, order: seq<string>)
    requires i <= |segs|
  {
    && order == Distinct(Classes(segs), i)
    && (forall c :: c in best <==> c in Winners(segs, i))
    && (forall c | c in best :: best[c] == segs[Winners(segs, i)[c]])
  }

  /** One step of the deduplication loop: a new class is appended to the key
      order; a known one is overwritten in place if the confidence is higher. */
  method KeepBetter(segs: seq<Segment>, i: nat, best: map<string, Segment>, order: seq<string>)
    returns (best': map<string, Segment>, order': seq<string>)
    requires i < |segs| && Holds(segs, i, best, order)
    ensures Holds(segs, i + 1, best', order')
  {
    WinnersKeys(segs, i);
    var tooth := segs[i];
    var cls := tooth.toothClass;
    best', order' := best, order;
    if cls !in best || tooth.confidence > best[cls].confidence {
      if cls !in best {
        order' := order + [cls];
      }
      best' := best[cls := tooth];
    }
    assert Classes(segs)[i] == cls;
  }

  /** The deduplication loop of `_segment_teeth`. */
  method DeduplicateTeeth(segs: seq<Segment>) returns (unique: seq<Segment>)
    ensures unique == Dedup(segs)
  {
    var best: map<string, Segment> := map[];
    var order: seq<string> := [];
    for i := 0 to |segs|
      invariant Holds(segs, i, best, order)
    {
      best, order := KeepBetter(segs, i, best, order);
    }
    WinnersKeys(segs, |segs|);
    unique := seq(|order|, a requires 0 <= a < |order| => best[order[a]]);
  }

  /** `_segment_teeth` after inference. */
  method SegmentTeeth(preds: seq<Prediction>) returns (teeth: seq<Segment>)
    ensures teeth == Dedup(seq(|preds|, i requires 0 <= i < |preds| => ToSegment(preds[i])))
  {
    var segs := ParseSegments(preds);
    assert segs == seq(|preds|, i requires 0 <= i < |preds| => ToSegment(preds[i]));
    teeth := DeduplicateTeeth(segs);
  }

  // ---------------------------------------------------------------- mapping problems to teeth

  /** One problem detection on the full image (or on a crop). */
  datatype Detection = Detection(box: Box, confidence: real, problem: string, detector: string)

  /** An entry of `findings`; the severity is optional for `_generate_summary`. */
  datatype Finding = Finding(toothDetectionId: string, toothClass: string, toothNumber: Option<string>,
                             toothType: ToothType, problem: string, confidence: real, bbox: seq<real>,
                             severity: Option<string>, description: string, detectedBy: string)

  /** The point lies in the box, edges included. */
  predicate Inside(t: Box, px: real, py: real) {
    t.x - t.width / 2.0 <= px <= t.x + t.width / 2.0 && t.y - t.height / 2.0 <= py <= t.y + t.height / 2.0
  }

  /** The squared distance between the box's centre and the point. */
  function Distance2(t: Box, px: real, py: real): (d: real)
    ensures d >= 0.0
  {
    (px - t.x) * (px - t.x) + (py - t.y) * (py - t.y)
  }

  /** The tooth `_map_problems_to_teeth` picks among the first k for the
      problem centre p: a containing tooth replaces the best one only when it
      is strictly nearer. */
  function Nearest(teeth: seq<Segment>, p: Box, k: nat): (r: Option<nat>)
    requires k <= |teeth|
    ensures r.Some? ==> r.value < k && Inside(teeth[r.value].box, p.x, p.y)
  {
    if k == 0 then None
    else
      var prev := Nearest(teeth, p, k - 1);
      var t := teeth[k - 1].box;
      if Inside(t, p.x, p.y)
         && (prev.None? || Distance2(t, p.x, p.y) < Distance2(teeth[prev.value].box, p.x, p.y))
      then Some(k - 1)
      else prev
  }

  /** No tooth is picked exactly when no tooth contains the centre; the tooth
      picked is a nearest containing one, and the first of them. */
  lemma {:induction false} NearestFacts(teeth: seq<Segment>, p: Box, k: nat)
    requires k <= |teeth|
    ensures Nearest(teeth, p, k).None? <==> forall i | 0 <= i < k :: !Inside(teeth[i].box, p.x, p.y)
    ensures Nearest(teeth, p, k).Some? ==>
              var j := Nearest(teeth, p, k).value;
              && (forall i | 0 <= i < k && Inside(teeth[i].box, p.x, p.y) ::
                    Distance2(teeth[j].box, p.x, p.y) <= Distance2(teeth[i].box, p.x, p.y))
              && (forall i | 0 <= i < j && Inside(teeth[i].box, p.x, p.y) ::
                    Distance2(teeth[j].box, p.x, p.y) < Distance2(teeth[i].box, p.x, p.y))
  {
    if k > 0 {
      NearestFacts(teeth, p, k - 1);
    }
  }

  /** The finding for a problem assigned to a tooth. */
  function OnTooth(t: Segment, p: Detection): Finding {
    Finding(t.detectionId, t.toothClass, t.toothNumber, t.toothType, p.problem, p.confidence,
            [p.box.x, p.box.y, p.box.width, p.box.height], Some("medium"),
            "Detected " + p.problem + " on full scan", p.detector)
  }

  /** Whether each problem lands on a tooth. */
  function Hits(problems: seq<Detection>, teeth: seq<Segment>): (h: seq<bool>)
    ensures |h| == |problems|
    ensures forall i | 0 <= i < |problems| :: h[i] == Nearest(teeth, problems[i].box, |teeth|).Some?
  {
    seq(|problems|, i requires 0 <= i < |problems| => Nearest(teeth, problems[i].box, |teeth|).Some?)
  }

  /** `_map_problems_to_teeth` on the first k problems. */
  function Mapped(problems: seq<Detection>, teeth: seq<Segment>, k: nat): seq<Finding>
    requires k <= |problems|
  {
    if k == 0 then []
    else
      var best := Nearest(teeth, problems[k - 1].box, |teeth|);
      if best.Some? then Mapped(problems, teeth, k - 1) + [OnTooth(teeth[best.value], problems[k - 1])]
      else Mapped(problems, teeth, k - 1)
  }

  /** The mapped findings are the problems that land on a tooth, in problem
      order (see `PositionsMembers` and `PositionsIncreasing`), each attached
      to its nearest containing tooth. */
  lemma {:induction false} MappedOrigins(problems: seq<Detection>, teeth: seq<Segment>, k: nat)
    requires k <= |problems|
    ensures var pos := Positions(Hits(problems, teeth), true, k);
            && |Mapped(problems, teeth, k)| == |pos|
            && forall j | 0 <= j < |pos| ::
                 pos[j] < k
                 && Nearest(teeth, problems[pos[j]].box, |teeth|).Some?
                 && Mapped(problems, teeth, k)[j]
                    == OnTooth(teeth[Nearest(teeth, problems[pos[j]].box, |teeth|).value], problems[pos[j]])
  {
    if k > 0 {
      MappedOrigins(problems, teeth, k - 1);
      var h := Hits(problems, teeth);
      var prev, pos := Positions(h, true, k - 1), Positions(h, true, k);
      var m, m' := Mapped(problems, teeth, k - 1), Mapped(problems, teeth, k);
      if h[k - 1] {
        assert pos == prev + [k - 1];
        assert m' == m + [OnTooth(teeth[Nearest(teeth, problems[k - 1].box, |teeth|).value], problems[k - 1])];
      } else {
        assert pos == prev && m' == m;
      }
    }
  }

  /** The inner loop of `_map_problems_to_teeth`; `best == None` plays the
      part of `min_dist == inf`. */
  method NearestTooth(teeth: seq<Segment>, p: Box) returns (best: Option<nat>)
    ensures best == Nearest(teeth, p, |teeth|)
  {
    best := None;
    var minDist := 0.0;
    for k := 0 to |teeth|
      invariant best == Nearest(teeth, p, k)
      invariant best.Some? ==> minDist == Distance2(teeth[best.value].box, p.x, p.y)
    {
      var t := teeth[k].box;
      if Inside(t, p.x, p.y) {
        var dist := Distance2(t, p.x, p.y);
        if best.None? || dist < minDist {
          minDist := dist;
          best := Some(k);
        }
      }
    }
  }

  /** `_map_problems_to_teeth`. */
  method MapProblemsToTeeth(problems: seq<Detection>, teeth: seq<Segment>) returns (mapped: seq<Finding>)
    ensures mapped == Mapped(problems, teeth, |problems|)
  {
    mapped := [];
    for k := 0 to |problems|
      invariant mapped == Mapped(problems, teeth, k)
    {
      var best := NearestTooth(teeth, problems[k].box);
      if best.Some? {
        mapped := mapped + [OnTooth(teeth[best.value], problems[k])];
      }
    }
  }

  // ---------------------------------------------------------------- the crop box

  /** What `cv2.imread` gives: the image size, or nothing. */
  datatype ImageSize = ImageSize(width: nat, height: nat)

  datatype CropRect = CropRect(x1: int, y1: int, x2: int, y2: int)

  const CropPadding := 10

  /** `_crop_tooth_image`: the box's corners truncated toward zero, widened by
      the padding and clamped to the image; an unreadable image or an empty
      rectangle gives `None`. */
  function CropBox(b: Box, image: Option<ImageSize>): (r: Option<CropRect>)
    ensures r.Some? ==> image.Some?
    ensures r.Some? ==> 0 <= r.value.x1 < r.value.x2 <= image.value.width
                        && 0 <= r.value.y1 < r.value.y2 <= image.value.height
    ensures image.Some? && r.None? ==>
              || Max0(Truncate(b.x - b.width / 2.0) - CropPadding)
                 >= Min(image.value.width, Truncate(b.x + b.width / 2.0) + CropPadding)
              || Max0(Truncate(b.y - b.height / 2.0) - CropPadding)
                 >= Min(image.value.height, Truncate(b.y + b.height / 2.0) + CropPadding)
  {
    if image.None? then None
    else
      var x1 := Max0(Truncate(b.x - b.width / 2.0) - CropPadding);
      var y1 := Max0(Truncate(b.y - b.height / 2.0) - CropPadding);
      var x2 := Min(image.value.width, Truncate(b.x + b.width / 2.0) + CropPadding);
      var y2 := Min(image.value.height, Truncate(b.y + b.height / 2.0) + CropPadding);
      if x1 >= x2 || y1 >= y2 then None else Some(CropRect(x1, y1, x2, y2))
  }

  function Max0(a: int): int { if a > 0 then a else 0 }

  function Min(a: int, b: int): int { if a < b then a else b }

  /** A box whose centre lies in the image always gives a crop, and the crop
      contains the centre. */
  lemma CropHoldsCentre(b: Box, size: ImageSize)
    requires b.width >= 0.0 && b.height >= 0.0
    requires 0.0 <= b.x < size.width as real && 0.0 <= b.y < size.height as real
    ensures var r := CropBox(b, Some(size));
            r.Some? && r.value.x1 as real <= b.x < r.value.x2 as real
            && r.value.y1 as real <= b.y < r.value.y2 as real
  {
  }

  // ---------------------------------------------------------------- the two strategies

  /** The per-tooth path leaves bridges, dentures and unknown objects alone. */
  predicate Croppable(s: Segment) {
    !(s.toothType in {Bridge, Denture, Unknown})
  }

  /** The finding for a detection on a tooth's crop (its box relative to the crop). */
  function OnCrop(t: Segment, d: Detection): Finding {
    Finding(t.detectionId, t.toothClass, t.toothNumber, t.toothType, d.problem, d.confidence,
            [d.box.x, d.box.y, d.box.width, d.box.height], Some("medium"), "Detected " + d.problem,
            d.detector)
  }

  /** `_detect_problems_per_tooth` on the first k segments; `detect` gives the
      detections of all loaded detectors on a crop. */
  function PerTooth(segs: seq<Segment>, image: Option<ImageSize>, detect: (Segment, CropRect) -> seq<Detection>,
                    k: nat): seq<Finding>
    requires k <= |segs|
  {
    if k == 0 then []
    else
      var s := segs[k - 1];
      var prev := PerTooth(segs, image, detect, k - 1);
      var crop := CropBox(s.box, image);
      if !Croppable(s) || crop.None? then prev
      else
        var ds := detect(s, crop.value);
        prev + seq(|ds|, j requires 0 <= j < |ds| => OnCrop(s, ds[j]))
  }

  /** The detection ids of the segments. */
  function Ids(segs: seq<Segment>): (ids: seq<string>)
    ensures |ids| == |segs| && forall i | 0 <= i < |segs| :: ids[i] == segs[i].detectionId
  {
    seq(|segs|, i requires 0 <= i < |segs| => segs[i].detectionId)
  }

  /** Every per-tooth finding belongs to a croppable segment. */
  lemma {:induction false} PerToothSkips(segs: seq<Segment>, image: Option<ImageSize>,
                                         detect: (Segment, CropRect) -> seq<Detection>, k: nat)
    requires k <= |segs|
    ensures forall f | f in PerTooth(segs, image, detect, k) ::
              f.toothType != Bridge && f.toothType != Denture && f.toothType != Unknown
              && f.toothDetectionId in Ids(segs)
  {
    if k > 0 {
      PerToothSkips(segs, image, detect, k - 1);
      assert Ids(segs)[k - 1] == segs[k - 1].detectionId;
    }
  }

  /** `_detect_problems`: 'PER_TOOTH' crops each tooth, any other strategy
      maps the full-image detections `global` to the teeth. */
  function DetectProblems(strategy: string, segs: seq<Segment>, image: Option<ImageSize>,
                          global: seq<Detection>, detect: (Segment, CropRect) -> seq<Detection>)
    : (r: seq<Finding>)
    ensures strategy != "PER_TOOTH" ==> |r| <= |global|
    ensures forall f | f in r :: f.toothDetectionId in Ids(segs)
    ensures strategy == "PER_TOOTH" ==>
              forall f | f in r :: f.toothType != Bridge && f.toothType != Denture && f.toothType != Unknown
  {
    if strategy == "PER_TOOTH" then
      PerToothSkips(segs, image, detect, |segs|);
      PerTooth(segs, image, detect, |segs|)
    else
      MappedOrigins(global, segs, |global|);
      PositionsCount(Hits(global, segs), |global|);
      var r := Mapped(global, segs, |global|);
      assert forall f | f in r :: f.toothDetectionId in Ids(segs) by {
        forall f | f in r ensures f.toothDetectionId in Ids(segs) {
          var j :| 0 <= j < |r| && r[j] == f;
          var pos := Positions(Hits(global, segs), true, |global|);
          var t := Nearest(segs, global[pos[j]].box, |segs|).value;
          assert Ids(segs)[t] == f.toothDetectionId;
        }
      }
      r
  }

  // ---------------------------------------------------------------- the summary

  /** The dictionary `_generate_summary` returns. */
  datatype Summary = Summary(totalFindings: nat, byType: map<string, nat>, bySeverity: map<string, nat>,
                             requiresAttention: bool)

  function Problems(findings: seq<Finding>): (ps: seq<string>)
    ensures |ps| == |findings| && forall i | 0 <= i < |findings| :: ps[i] == findings[i].problem
  {
    seq(|findings|, i requires 0 <= i < |findings| => findings[i].problem)
  }

  /** `finding.get('severity', 'unknown')` for each finding. */
  function Severities(findings: seq<Finding>): (ss: seq<string>)
    ensures |ss| == |findings| && forall i | 0 <= i < |findings| :: ss[i] == findings[i].severity.GetOr("unknown")
  {
    seq(|findings|, i requires 0 <= i < |findings| => findings[i].severity.GetOr("unknown"))
  }

  function SummaryOf(findings: seq<Finding>): Summary {
    Summary(|findings|, Counts(Problems(findings), |findings|), Counts(Severities(findings), |findings|),
            |findings| > 0)
  }

  /** `_generate_summary`. */
  method GenerateSummary(findings: seq<Finding>) returns (s: Summary)
    ensures s == SummaryOf(findings)
  {
    if |findings| == 0 {
      return Summary(0, map[], map[], false);
    }
    var byType: map<string, nat> := map[];
    var bySeverity: map<string, nat> := map[];
    for i := 0 to |findings|
      invariant byType == Counts(Problems(findings), i)
      invariant bySeverity == Counts(Severities(findings), i)
    {
      var problem := findings[i].problem;
      var severity := findings[i].severity.GetOr("unknown");
      byType := byType[problem := Get(byType, problem) + 1];
      bySeverity := bySeverity[severity := Get(bySeverity, severity) + 1];
    }
    s := Summary(|findings|, byType, bySeverity, |findings| > 0);
  }

  /** The summary counts every finding once by type and once by severity
      (a missing severity as "unknown"), and asks for attention exactly when
      there is a finding. */
  lemma SummaryFacts(findings: seq<Finding>)
    ensures var s := SummaryOf(findings);
            && s.totalFindings == |findings|
            && (s.requiresAttention <==> |findings| > 0)
            && (forall p :: Get(s.byType, p) == Occurrences(Problems(findings), p, |findings|))
            && (forall v :: Get(s.bySeverity, v) == Occurrences(Severities(findings), v, |findings|))
            && SumOver(Distinct(Problems(findings), |findings|), s.byType) == s.totalFindings
            && SumOver(Distinct(Severities(findings), |findings|), s.bySeverity) == s.totalFindings
            && (forall p :: p in s.byType <==> p in Distinct(Problems(findings), |findings|))
  {
    CountsFacts(Problems(findings), |findings|);
    CountsFacts(Severities(findings), |findings|);
    CountsTotal(Problems(findings), |findings|);
    CountsTotal(Severities(findings), |findings|);
    CountsKeys(Problems(findings), |findings|);
  }

  // ---------------------------------------------------------------- the analysis

  /** The dictionary `analyze_pano_image` returns. */
  datatype Analysis = Analysis(totalTeeth: nat, teethData: seq<Segment>, findings: seq<Finding>, summary: Summary)

  /** `analyze_pano_image` after inference: `preds` are the segmentation
      model's predictions, `global` the detectors' output on the full image
      and `detect` their output on a crop. */
  method AnalyzePanoImage(preds: seq<Prediction>, strategy: string, image: Option<ImageSize>,
                          global: seq<Detection>, detect: (Segment, CropRect) -> seq<Detection>)
    returns (r: Analysis)
    ensures r.teethData == Dedup(seq(|preds|, i requires 0 <= i < |preds| => ToSegment(preds[i])))
    ensures r.totalTeeth == |r.teethData|
    ensures r.findings == DetectProblems(strategy, r.teethData, image, global, detect)
    ensures r.summary == SummaryOf(r.findings)
  {
    var teeth := SegmentTeeth(preds);
    var findings: seq<Finding>;
    if strategy == "PER_TOOTH" {
      findings := PerTooth(teeth, image, detect, |teeth|);
    } else {
      findings := MapProblemsToTeeth(global, teeth);
    }
    var summary := GenerateSummary(findings);
    r := Analysis(|teeth|, teeth, findings, summary);
  }
}
