/** `ModelManager`: the registry of AI models kept in two Redis hashes, the
    models by id and the active model id by model type. `available` stands for
    `redis_client` being set. `uuid4` values, `uuid1` time stamps and the
    segmentation threshold read from the environment are parameters. A method
    that raises returns `Err` with the exception's message. */
module ModelManager {
  import opened Wrappers

  const ValidTypes: set<string> := {"pano_segmentation", "pano_detection", "cbct_segmentation", "cbct_detection"}

  const InvalidTypeError := "Invalid model_type"

  /** A record of the `ai_models_registry` hash. Records written by other
      versions may lack a type. */
  datatype Model = Model(id: string, name: string, path: Option<string>, modelType: Option<string>,
                         threshold: real, createdAt: string)

  /** A model as the listing methods return it, with its `source`. */
  datatype Listed = Listed(id: string, name: string, path: Option<string>, modelType: Option<string>,
                           threshold: real, createdAt: Option<string>, source: string)

  function FromRedis(m: Model): Listed {
    Listed(m.id, m.name, m.path, m.modelType, m.threshold, Some(m.createdAt), "redis")
  }

  // ---------------------------------------------------------------- types

  /** The type `register_model` stores: a valid type as it is, "detection" as
      "pano_detection", and nothing for any other string. */
  function NormalType(t: string): (r: Option<string>)
    ensures r.Some? <==> t in ValidTypes || t == "detection"
    ensures r.Some? ==> r.value in ValidTypes && (r.value == t || t == "detection")
  {
    if t in ValidTypes then Some(t) else if t == "detection" then Some("pano_detection") else None
  }

  /** The slot `set_active_model` writes: the record's type when it is valid,
      "pano_detection" otherwise. */
  function ActiveSlot(t: Option<string>): (s: string)
    ensures s in ValidTypes
    ensures t.Some? && t.value in ValidTypes ==> s == t.value
    ensures !(t.Some? && t.value in ValidTypes) ==> s == "pano_detection"
  {
    if t.Some? && t.value in ValidTypes then t.value else "pano_detection"
  }

  // ---------------------------------------------------------------- local defaults

  /** An entry of a model configuration; `None` is a missing key. */
  datatype Cfg = Cfg(name: Option<string>, path: Option<string>, threshold: Option<real>)

  /** The four configuration constants; a segmentation configuration is `None`
      when it is empty. */
  datatype Configs = Configs(panoDetection: seq<Cfg>, panoSegmentation: Option<Cfg>, cbctDetection: seq<Cfg>,
                             cbctSegmentation: Option<Cfg>)

  /** The configuration modules as shipped: one panoramic detector, the
      panoramic segmenter (threshold from `AI_SEGMENTATION_THRESHOLD`), no CBCT
      detector and the CBCT segmenter. */
  function ShippedConfigs(segmentationThreshold: real): Configs {
    Configs([Cfg(Some("multiproblem"), Some("models/pano/multiproblem.pt"), Some(0.2))],
            Some(Cfg(None, Some("models/pano/tooth_segmentation.pt"), Some(segmentationThreshold))),
            [],
            Some(Cfg(None, Some("models/cbct/cbct_tooth_segmentation.pt"), Some(0.1))))
  }

  /** `fmt(cfg, m_type, default_name)`. */
  function Fmt(cfg: Cfg, t: string, defaultName: string): Listed {
    var name := cfg.name.GetOr(defaultName);
    Listed("local_" + name, name, cfg.path, Some(t), cfg.threshold.GetOr(0.5), None, "local_default")
  }

  function FmtAll(cfgs: seq<Cfg>, t: string, defaultName: string): (ms: seq<Listed>)
    ensures |ms| == |cfgs| && forall i | 0 <= i < |ms| :: ms[i] == Fmt(cfgs[i], t, defaultName)
  {
    seq(|cfgs|, i requires 0 <= i < |cfgs| => Fmt(cfgs[i], t, defaultName))
  }

  function OptionalFmt(cfg: Option<Cfg>, t: string, defaultName: string): seq<Listed> {
    if cfg.Some? then [Fmt(cfg.value, t, defaultName)] else []
  }

  /** `get_local_default_models`: panoramic detectors, panoramic segmenter,
      CBCT detectors, CBCT segmenter. */
  function LocalDefaults(c: Configs): (ms: seq<Listed>)
    ensures forall i | 0 <= i < |ms| :: ms[i].modelType.Some? && ms[i].modelType.value in ValidTypes
    ensures forall i | 0 <= i < |ms| :: ms[i].source == "local_default" && ms[i].id == "local_" + ms[i].name
  {
    FmtAll(c.panoDetection, "pano_detection", "default_pano_det")
    + OptionalFmt(c.panoSegmentation, "pano_segmentation", "default_pano_seg")
    + FmtAll(c.cbctDetection, "cbct_detection", "default_cbct_det")
    + OptionalFmt(c.cbctSegmentation, "cbct_segmentation", "default_cbct_seg")
  }

  /** The first of the first k defaults of type t. */
  function FirstOfType(defaults: seq<Listed>, t: string, k: nat): (r: Option<Listed>)
    requires k <= |defaults|
    ensures r.Some? ==> exists i | 0 <= i < k :: defaults[i] == r.value && r.value.modelType == Some(t)
                                                 && forall j | 0 <= j < i :: defaults[j].modelType != Some(t)
    ensures r.None? <==> forall i | 0 <= i < k :: defaults[i].modelType != Some(t)
  {
    if k == 0 then None
    else
      var prev := FirstOfType(defaults, t, k - 1);
      if prev.Some? then prev
      else if defaults[k - 1].modelType == Some(t) then Some(defaults[k - 1])
      else None
  }

  /** The shipped defaults: one model each for panoramic detection, panoramic
      segmentation and CBCT segmentation (their ids are "local_" and the
      name), and none for CBCT detection. */
  lemma ShippedDefaults(segmentationThreshold: real)
    ensures var ds := LocalDefaults(ShippedConfigs(segmentationThreshold));
            && |ds| == 3
            && ds[0].name == "multiproblem" && ds[0].modelType == Some("pano_detection")
            && ds[1].name == "default_pano_seg" && ds[1].modelType == Some("pano_segmentation")
            && ds[2].name == "default_cbct_seg" && ds[2].modelType == Some("cbct_segmentation")
            && FirstOfType(ds, "cbct_detection", |ds|).None?
  {
    var c := ShippedConfigs(segmentationThreshold);
    var d0 := Fmt(c.panoDetection[0], "pano_detection", "default_pano_det");
    var d1 := Fmt(c.panoSegmentation.value, "pano_segmentation", "default_pano_seg");
    var d2 := Fmt(c.cbctSegmentation.value, "cbct_segmentation", "default_cbct_seg");
    assert FmtAll(c.panoDetection, "pano_detection", "default_pano_det") == [d0];
    assert FmtAll(c.cbctDetection, "cbct_detection", "default_cbct_det") == [];
    var ds := LocalDefaults(c);
    assert ds == [d0, d1, d2];
    assert forall i | 0 <= i < 3 :: ds[i].modelType != Some("cbct_detection");
  }

  // ---------------------------------------------------------------- active models

  predicate AllTyped(defaults: seq<Listed>) {
    forall i | 0 <= i < |defaults| :: defaults[i].modelType.Some?
  }

  /** The merge loop of `get_active_model()`: a default fills its type only
      when nothing holds it yet. */
  function MergeDefaults(resolved: map<string, Listed>, defaults: seq<Listed>, k: nat): map<string, Listed>
    requires k <= |defaults| && AllTyped(defaults)
  {
    if k == 0 then resolved
    else
      var prev := MergeDefaults(resolved, defaults, k - 1);
      var t := defaults[k - 1].modelType.value;
      if t in prev then prev else prev[t := defaults[k - 1]]
  }

  /** Redis wins per type; every other type a default has gets its first
      default of that type. */
  lemma {:induction false} MergeDefaultsFacts(resolved: map<string, Listed>, defaults: seq<Listed>, k: nat)
    requires k <= |defaults| && AllTyped(defaults)
    ensures var m := MergeDefaults(resolved, defaults, k);
            forall t :: (t in m <==> t in resolved || FirstOfType(defaults, t, k).Some?)
                        && (t in resolved ==> m[t] == resolved[t])
                        && (t !in resolved && FirstOfType(defaults, t, k).Some? ==> m[t] == FirstOfType(defaults, t, k).value)
  {
    if k > 0 {
      MergeDefaultsFacts(resolved, defaults, k - 1);
    }
  }

  /** What `get_active_model` returns: one model (or `None`) for a type, all
      active models without one. */
  datatype ActiveResult = One(model: Option<Listed>) | All(models: map<string, Listed>)

  // ---------------------------------------------------------------- initial registrations

  /** The arguments of one `register_model` call of `init_default_models`. */
  datatype Registration = Registration(name: string, path: Option<string>, modelType: string, threshold: real)

  function DetectorPlan(cfgs: seq<Cfg>, t: string, defaultName: string): (rs: seq<Registration>)
    ensures |rs| == |cfgs| && forall i | 0 <= i < |rs| :: rs[i].modelType == t
  {
    seq(|cfgs|, i requires 0 <= i < |cfgs| =>
          Registration(cfgs[i].name.GetOr(defaultName), cfgs[i].path, t, cfgs[i].threshold.GetOr(0.5)))
  }

  function SegmenterPlan(cfg: Option<Cfg>, t: string, name: string, defaultThreshold: real): (rs: seq<Registration>)
    ensures forall i | 0 <= i < |rs| :: rs[i].modelType == t
  {
    if cfg.Some? then [Registration(name, cfg.value.path, t, cfg.value.threshold.GetOr(defaultThreshold))] else []
  }

  /** The registrations of `init_default_models`, in order; a segmenter is
      registered under a fixed name whatever its configuration says. */
  function InitPlan(c: Configs): (rs: seq<Registration>)
    ensures forall i | 0 <= i < |rs| :: rs[i].modelType in ValidTypes
  {
    DetectorPlan(c.panoDetection, "pano_detection", "default_pano_det")
    + SegmenterPlan(c.panoSegmentation, "pano_segmentation", "default_pano_seg", 0.2)
    + DetectorPlan(c.cbctDetection, "cbct_detection", "default_cbct_det")
    + SegmenterPlan(c.cbctSegmentation, "cbct_segmentation", "default_cbct_seg", 0.1)
  }

  function Registered(r: Registration, id: string, stamp: string): Model {
    Model(id, r.name, r.path, Some(r.modelType), r.threshold, stamp)
  }

  /** The registry after the first k registrations. */
  function PlanModels(models: map<string, Model>, plan: seq<Registration>, ids: seq<string>, stamps: seq<string>,
                      k: nat): map<string, Model>
    requires k <= |plan| <= |ids| && |plan| <= |stamps|
  {
    if k == 0 then models
    else PlanModels(models, plan, ids, stamps, k - 1)[ids[k - 1] := Registered(plan[k - 1], ids[k - 1], stamps[k - 1])]
  }

  /** The active hash after the first k registrations, each activated at once. */
  function PlanActive(active: map<string, string>, plan: seq<Registration>, ids: seq<string>, k: nat)
    : map<string, string>
    requires k <= |plan| <= |ids|
  {
    if k == 0 then active
    else PlanActive(active, plan, ids, k - 1)[plan[k - 1].modelType := ids[k - 1]]
  }

  /** The last of the first k registrations of type t. */
  function LastOfType(plan: seq<Registration>, t: string, k: nat): (r: Option<nat>)
    requires k <= |plan|
    ensures r.Some? ==> r.value < k && plan[r.value].modelType == t
                        && forall j | r.value < j < k :: plan[j].modelType != t
    ensures r.None? ==> forall j | 0 <= j < k :: plan[j].modelType != t
  {
    if k == 0 then None
    else if plan[k - 1].modelType == t then Some(k - 1)
    else LastOfType(plan, t, k - 1)
  }

  /** After the initial registrations, each type registered is served by its
      last registration; other types keep what the hash held. */
  lemma {:induction false} PlanActiveFacts(active: map<string, string>, plan: seq<Registration>, ids: seq<string>,
                                           k: nat)
    requires k <= |plan| <= |ids|
    ensures var a := PlanActive(active, plan, ids, k);
            forall t :: (t in a <==> t in active || LastOfType(plan, t, k).Some?)
                        && (LastOfType(plan, t, k).Some? ==> a[t] == ids[LastOfType(plan, t, k).value])
                        && (LastOfType(plan, t, k).None? && t in active ==> a[t] == active[t])
  {
    if k > 0 {
      PlanActiveFacts(active, plan, ids, k - 1);
    }
  }

  /** One more registration overwrites the record under its id. */
  lemma PlanModelsStep(models: map<string, Model>, plan: seq<Registration>, ids: seq<string>,
                       stamps: seq<string>, k: nat)
    requires 0 < k <= |plan| <= |ids| && |plan| <= |stamps|
    ensures PlanModels(models, plan, ids, stamps, k)
            == PlanModels(models, plan, ids, stamps, k - 1)[ids[k - 1] := Registered(plan[k - 1], ids[k - 1], stamps[k - 1])]
    ensures ids[..k] == ids[..k - 1] + [ids[k - 1]]
  {
  }

  /** The registry gains exactly the new ids and keeps every other record. */
  lemma {:induction false} PlanModelsKeys(models: map<string, Model>, plan: seq<Registration>, ids: seq<string>,
                                          stamps: seq<string>, k: nat)
    requires k <= |plan| <= |ids| && |plan| <= |stamps|
    ensures var m := PlanModels(models, plan, ids, stamps, k);
            && (forall id :: id in m <==> id in models || id in ids[..k])
            && (forall id | id in m && id !in ids[..k] :: m[id] == models[id])
  {
    if k > 0 {
      PlanModelsKeys(models, plan, ids, stamps, k - 1);
      PlanModelsStep(models, plan, ids, stamps, k);
    }
  }

  /** Registration j is the last of the first k with its id. */
  predicate LastWithId(ids: seq<string>, j: nat, k: nat)
    requires j < k <= |ids|
  {
    forall j' | j < j' < k :: ids[j'] != ids[j]
  }

  /** The registry holds under each id its last registration. */
  lemma {:induction false} PlanModelsLast(models: map<string, Model>, plan: seq<Registration>, ids: seq<string>,
                                          stamps: seq<string>, k: nat)
    requires k <= |plan| <= |ids| && |plan| <= |stamps|
    ensures var m := PlanModels(models, plan, ids, stamps, k);
            forall j | 0 <= j < k && LastWithId(ids, j, k) ::
              ids[j] in m && m[ids[j]] == Registered(plan[j], ids[j], stamps[j])
  {
    if k > 0 {
      PlanModelsLast(models, plan, ids, stamps, k - 1);
      PlanModelsStep(models, plan, ids, stamps, k);
      var prev := PlanModels(models, plan, ids, stamps, k - 1);
      var m := PlanModels(models, plan, ids, stamps, k);
      forall j | 0 <= j < k && LastWithId(ids, j, k)
        ensures ids[j] in m && m[ids[j]] == Registered(plan[j], ids[j], stamps[j])
      {
        if j < k - 1 {
          assert ids[k - 1] != ids[j];
          assert LastWithId(ids, j, k - 1);
          assert m[ids[j]] == prev[ids[j]];
        }
      }
    }
  }

  /** The registry gains exactly the new ids, keeps every other record, and
      holds under each id its last registration. */
  lemma PlanModelsFacts(models: map<string, Model>, plan: seq<Registration>, ids: seq<string>,
                        stamps: seq<string>, k: nat)
    requires k <= |plan| <= |ids| && |plan| <= |stamps|
    ensures var m := PlanModels(models, plan, ids, stamps, k);
            && (forall id :: id in m <==> id in models || id in ids[..k])
            && (forall id | id in m && id !in ids[..k] :: m[id] == models[id])
            && (forall j | 0 <= j < k && LastWithId(ids, j, k) :: m[ids[j]] == Registered(plan[j], ids[j], stamps[j]))
  {
    PlanModelsKeys(models, plan, ids, stamps, k);
    PlanModelsLast(models, plan, ids, stamps, k);
  }

  // ---------------------------------------------------------------- the registry

  class Registry {
    /** `redis_client` is set. */
    var available: bool
    /** The `ai_models_registry` hash. */
    var models: map<string, Model>
    /** The `active_ai_models` hash: type to model id. */
    var active: map<string, string>

    constructor(available: bool, models: map<string, Model>, active: map<string, string>)
      ensures this.available == available && this.models == models && this.active == active
    {
      this.available := available;
      this.models := models;
      this.active := active;
    }

    /** The state the operations keep: every record has a valid type, and
        every active entry names a record filed under that record's slot. */
    predicate Valid()
      reads this
    {
      && (forall id | id in models :: models[id].modelType.Some? && models[id].modelType.value in ValidTypes)
      && (forall t | t in active :: active[t] in models && ActiveSlot(models[active[t]].modelType) == t)
    }

    /** In a valid state no active entry is ignored. */
    lemma ValidResolvesAll()
      requires Valid()
      ensures forall t :: t in Resolved() <==> available && t in active
    {
    }

    /** The active entries whose model exists, read from Redis. */
    function Resolved(): (m: map<string, Listed>)
      reads this
      ensures forall t :: t in m <==> available && t in active && active[t] in models
      ensures forall t | t in m :: m[t] == FromRedis(models[active[t]])
    {
      if available then map t | t in active.Keys && active[t] in models :: FromRedis(models[active[t]])
      else map[]
    }

    /** `register_model`: `None` without Redis; an unknown type raises and
        changes nothing; otherwise exactly one record is written, under the
        new id. */
    method RegisterModel(name: string, path: Option<string>, modelType: string, threshold: real, newId: string,
                         createdAt: string) returns (r: Result<Option<Model>>)
      modifies this
      ensures available == old(available) && active == old(active)
      ensures !available ==> r == Ok(None) && models == old(models)
      ensures available && NormalType(modelType).None? ==> r == Err(InvalidTypeError) && models == old(models)
      ensures available && NormalType(modelType).Some? ==>
                var m := Model(newId, name, path, NormalType(modelType), threshold, createdAt);
                r == Ok(Some(m)) && models == old(models)[newId := m]
      ensures old(Valid()) && newId !in old(models) ==> Valid()
    {
      if !available {
        return Ok(None);
      }
      var t := NormalType(modelType);
      if t.None? {
        return Err(InvalidTypeError);
      }
      var m := Model(newId, name, path, t, threshold, createdAt);
      models := models[newId := m];
      r := Ok(Some(m));
    }

    /** `get_all_models`: the Redis models, in the hash's order, or the local
        defaults when there are none. */
    method GetAllModels(c: Configs) returns (r: seq<Listed>)
      ensures !(available && |models| > 0) ==> r == LocalDefaults(c)
      ensures available && |models| > 0 ==>
                && |r| == |models|
                && (forall id | id in models :: FromRedis(models[id]) in r)
                && (forall i | 0 <= i < |r| :: exists id | id in models :: r[i] == FromRedis(models[id]))
    {
      r := [];
      if available {
        var remaining := models.Keys;
        while remaining != {}
          invariant remaining <= models.Keys
          invariant |r| + |remaining| == |models.Keys|
          invariant forall id | id in models.Keys - remaining :: FromRedis(models[id]) in r
          invariant forall i | 0 <= i < |r| :: exists id | id in models.Keys - remaining :: r[i] == FromRedis(models[id])
          decreases |remaining|
        {
          var id :| id in remaining;
          r := r + [FromRedis(models[id])];
          remaining := remaining - {id};
        }
      }
      if |r| == 0 {
        r := LocalDefaults(c);
      }
    }

    /** `set_active_model`: `False` without Redis; an unknown id raises;
        otherwise the model becomes the active one of its type (of
        "pano_detection" when its type is missing or invalid). */
    method SetActiveModel(id: string) returns (r: Result<bool>)
      modifies this
      ensures available == old(available) && models == old(models)
      ensures !available ==> r == Ok(false) && active == old(active)
      ensures available && id !in models ==> r == Err("Model " + id + " not found") && active == old(active)
      ensures available && id in models ==>
                r == Ok(true) && active == old(active)[ActiveSlot(models[id].modelType) := id]
      ensures old(Valid()) ==> Valid()
    {
      if !available {
        return Ok(false);
      }
      if id !in models {
        return Err("Model " + id + " not found");
      }
      active := active[ActiveSlot(models[id].modelType) := id];
      r := Ok(true);
    }

    /** The loop of `get_active_model` that reads the active hash. */
    method ResolveActive() returns (m: map<string, Listed>)
      ensures m == Resolved()
    {
      m := map[];
      if !available {
        return;
      }
      var remaining := active.Keys;
      while remaining != {}
        invariant remaining <= active.Keys
        invariant m == map t | t in active.Keys - remaining && active[t] in models :: FromRedis(models[active[t]])
        decreases |remaining|
      {
        var t :| t in remaining;
        if active[t] in models {
          m := m[t := FromRedis(models[active[t]])];
        }
        remaining := remaining - {t};
      }
    }

    /** `get_active_model(model_type)`. With a type: the Redis choice if its
        model exists, else the first local default of that type, else `None`.
        Without one: the Redis choices, and for each other type its first
        local default. */
    method GetActiveModel(modelType: Option<string>, c: Configs) returns (r: ActiveResult)
      ensures modelType.Some? && modelType.value != "" ==>
                var t := modelType.value;
                r == One(if t in Resolved() then Some(Resolved()[t])
                         else FirstOfType(LocalDefaults(c), t, |LocalDefaults(c)|))
      ensures !(modelType.Some? && modelType.value != "") ==>
                r == All(MergeDefaults(Resolved(), LocalDefaults(c), |LocalDefaults(c)|))
    {
      var resolved := ResolveActive();
      var defaults := LocalDefaults(c);
      if modelType.Some? && modelType.value != "" {
        var t := modelType.value;
        if t in resolved {
          return One(Some(resolved[t]));
        }
        return One(FirstOfType(defaults, t, |defaults|));
      }
      var merged := resolved;
      for j := 0 to |defaults|
        invariant merged == MergeDefaults(resolved, defaults, j)
      {
        var t := defaults[j].modelType.value;
        if t !in merged {
          merged := merged[t := defaults[j]];
        }
      }
      r := All(merged);
    }

    /** `delete_model`: `False` without Redis or for an unknown id; otherwise
        the record goes, and its type stops being active only if it was this
        model. */
    method DeleteModel(id: string) returns (b: bool)
      modifies this
      ensures available == old(available)
      ensures !(old(available) && id in old(models)) ==> !b && models == old(models) && active == old(active)
      ensures old(available) && id in old(models) ==>
                && b && models == old(models) - {id}
                && var t := old(models)[id].modelType;
                   active == if t.Some? && t.value != "" && t.value in old(active) && old(active)[t.value] == id
                             then old(active) - {t.value} else old(active)
      ensures old(Valid()) ==> Valid()
    {
      if !available || id !in models {
        return false;
      }
      var t := models[id].modelType;
      models := models - {id};
      if t.Some? && t.value != "" && t.value in active && active[t.value] == id {
        active := active - {t.value};
      }
      b := true;
    }

    /** `deactivate_model_type`: only the entry of that type goes. */
    method DeactivateModelType(t: string) returns (b: bool)
      modifies this
      ensures available == old(available) && models == old(models) && b == available
      ensures active == if available then old(active) - {t} else old(active)
      ensures old(Valid()) ==> Valid()
    {
      if !available {
        return false;
      }
      active := active - {t};
      b := true;
    }

    /** `init_default_models`: nothing without Redis or when a model is
        registered; otherwise every configured model is registered under the
        next id and activated at once. */
    method InitDefaultModels(c: Configs, ids: seq<string>, stamps: seq<string>)
      requires |InitPlan(c)| <= |ids| && |InitPlan(c)| <= |stamps|
      modifies this
      ensures available == old(available)
      ensures !(old(available) && |old(models)| == 0) ==> models == old(models) && active == old(active)
      ensures old(available) && |old(models)| == 0 ==>
                && models == PlanModels(old(models), InitPlan(c), ids, stamps, |InitPlan(c)|)
                && active == PlanActive(old(active), InitPlan(c), ids, |InitPlan(c)|)
      ensures old(Valid()) && (forall a, b | 0 <= a < b < |InitPlan(c)| :: ids[a] != ids[b]) ==> Valid()
    {
      if !available || |models| > 0 {
        return;
      }
      var plan := InitPlan(c);
      for j := 0 to |plan|
        invariant available
        invariant models == PlanModels(old(models), plan, ids, stamps, j)
        invariant active == PlanActive(old(active), plan, ids, j)
        invariant forall id | id in models :: id in ids[..j]
        invariant old(Valid()) && (forall a, b | 0 <= a < b < |plan| :: ids[a] != ids[b]) ==> Valid()
      {
        PlanModelsFacts(old(models), plan, ids, stamps, j);
        var reg := RegisterModel(plan[j].name, plan[j].path, plan[j].modelType, plan[j].threshold, ids[j], stamps[j]);
        var activated := SetActiveModel(ids[j]);
      }
    }
  }
}
