/**
 * The module-level documents of runner_templates.py: the master scoring
 * configuration and one component template per property family. They are the
 * initial values of the shared state that every prediction overwrites in
 * place.
 */
module RunnerTemplates {
  import opened Wrappers
  import opened Document

  function F(name: string): Key { Field(name) }

  /** `scoring_config` */
  const ScoringConfig: Value := Obj(map[
    F("run_type") := Str("scoring"),
    F("device") := Str("cpu"),
    F("use_cuda") := Bool(true),
    F("tb_logdir") := Null,
    F("json_out_config") := Str("_scoring.json"),
    F("parameters") := Obj(map[
      F("smiles_file") := Str("compounds.smi"),
      F("output_csv") := Str("scoring.scv"),
      F("smiles_column") := Str("SMILES"),
      F("standardize_smiles") := Bool(true)]),
    F("scoring") := Obj(map[
      F("type") := Str("geometric_mean"),
      F("parallel") := Bool(false),
      F("component") := List([]),
      F("filename") := Null]),
    F("scheduler") := Null,
    F("responder") := Null,
    F("stage") := Null,
    F("learning_strategy") := Null,
    F("diversity_filter") := Null,
    F("inception") := Null])

  /** `custom_alerts_config` */
  const CustomAlertsConfig: Value := List([Obj(map[
    F("custom_alerts") := Obj(map[
      F("endpoint") := List([Obj(map[
        F("name") := Str("Alerts"),
        F("params") := Obj(map[
          F("smarts") := List([Str("[*;r10]")])])])])])])])

  /** `qed_config` */
  const QedConfig: Value := List([Obj(map[
    F("QED") := Obj(map[
      F("endpoint") := List([Obj(map[
        F("name") := Str("QED"),
        F("weight") := Float(0.25)])])])])])

  /** `molecular_weight_config` */
  const MolecularWeightConfig: Value := List([Obj(map[
    F("MolecularWeight") := Obj(map[
      F("endpoint") := List([Obj(map[
        F("name") := Str("MW"),
        F("weight") := Float(0.25),
        F("transform") := Obj(map[
          F("type") := Str("double_sigmoid"),
          F("high") := Float(500.0),
          F("low") := Float(200.0),
          F("coef_div") := Float(500.0),
          F("coef_si") := Float(20.0),
          F("coef_se") := Float(20.0)])])])])])])

  /** `tanimoto_config` */
  const TanimotoConfig: Value := List([Obj(map[
    F("TanimotoDistance") := Obj(map[
      F("endpoint") := List([Obj(map[
        F("name") := Str("Tanimoto similarity ECF6"),
        F("weight") := Float(0.1),
        F("params") := Obj(map[
          F("smiles") := List([]),
          F("radius") := Int(3),
          F("use_counts") := Bool(true),
          F("use_features") := Bool(true)])])])])])])

  /** `pmi_config` */
  const PmiConfig: Value := List([Obj(map[
    F("pmi") := Obj(map[
      F("name") := Str("PMI 3D-likeness"),
      F("endpoint") := List([
        Obj(map[
          F("weight") := Float(0.79),
          F("params") := Obj(map[F("property") := Str("npr1")])]),
        Obj(map[
          F("weight") := Float(0.21),
          F("params") := Obj(map[F("property") := Str("npr2")])])])])])])

  // ---------------------------------------------------------------------
  // Where the templates keep what the predictor overwrites

  const ParametersPath: Path := [F("parameters")]
  const ScoringPath: Path := [F("scoring")]
  const SmilesFilePath: Path := [F("parameters"), F("smiles_file")]
  const OutputCsvPath: Path := [F("parameters"), F("output_csv")]
  const ComponentPath: Path := [F("scoring"), F("component")]

  /** `<template>[0][name]["endpoint"][i]` */
  function EndpointPath(name: string, i: int): Path
  {
    [At(0), F(name), F("endpoint"), At(i)]
  }

  const AlertsEndpoint: Path := EndpointPath("custom_alerts", 0)
  const QedEndpoint: Path := EndpointPath("QED", 0)
  const MwEndpoint: Path := EndpointPath("MolecularWeight", 0)
  const TanimotoEndpoint: Path := EndpointPath("TanimotoDistance", 0)
  const PmiComponent: Path := [At(0), F("pmi")]
  const PmiEndpoint1: Path := EndpointPath("pmi", 0)
  const PmiEndpoint2: Path := EndpointPath("pmi", 1)
  const MwTransform: Path := MwEndpoint + [F("transform")]
  const TanimotoParams: Path := TanimotoEndpoint + [F("params")]

  // ---------------------------------------------------------------------
  // The shape of the templates

  predicate IsSection(v: Value)
  {
    v.Obj? || v.List?
  }

  /** Only "parameters" and "scoring" hold a dict or a list; every other entry is a scalar or None. */
  lemma ScoringConfigSections()
    ensures ScoringConfig.Obj?
    ensures forall k | k in ScoringConfig.fields :: IsSection(ScoringConfig.fields[k]) <==> k == F("parameters") || k == F("scoring")
  {
  }

  /** The component list starts empty; the two file entries the predictor overwrites already exist. */
  lemma ScoringConfigSlots()
    ensures Get(ScoringConfig, ComponentPath) == Some(List([]))
    ensures Get(ScoringConfig, SmilesFilePath) == Some(Str("compounds.smi"))
    ensures Get(ScoringConfig, OutputCsvPath) == Some(Str("scoring.scv"))
  {
  }

  /** A one-element list whose dict has the single key naming the component. */
  predicate Headed(v: Value, name: string)
  {
    v.List? && |v.items| == 1 && v.items[0].Obj? && v.items[0].fields.Keys == {F(name)}
  }

  lemma TemplatesHeaded()
    ensures Headed(CustomAlertsConfig, "custom_alerts")
    ensures Headed(QedConfig, "QED")
    ensures Headed(MolecularWeightConfig, "MolecularWeight")
    ensures Headed(TanimotoConfig, "TanimotoDistance")
    ensures Headed(PmiConfig, "pmi")
  {
  }

  /** The length of a template's endpoint list. */
  function EndpointCount(v: Value, name: string): int
  {
    var e := Get(v, [At(0), F(name), F("endpoint")]);
    if e.Some? && e.value.List? then |e.value.items| else -1
  }

  /** One endpoint in the alerts and QED templates: the only endpoint index the predictor uses for them exists. */
  lemma SimpleEndpointCounts()
    ensures EndpointCount(CustomAlertsConfig, "custom_alerts") == 1
    ensures EndpointCount(QedConfig, "QED") == 1
  {
  }

  /** One endpoint in the molecular-weight and Tanimoto templates. */
  lemma WeightedEndpointCounts()
    ensures EndpointCount(MolecularWeightConfig, "MolecularWeight") == 1
    ensures EndpointCount(TanimotoConfig, "TanimotoDistance") == 1
  {
  }

  /** The PMI template has two endpoints, one per principal-moments ratio. */
  lemma PmiEndpointCount()
    ensures EndpointCount(PmiConfig, "pmi") == 2
  {
  }

  /** The QED endpoint holds a name and a weight, and nothing under the int key 0. */
  lemma QedEndpointKeys()
    ensures KeysAt(QedConfig, QedEndpoint) == {F("name"), F("weight")}
    ensures Get(QedConfig, QedEndpoint + [F("name")]) == Some(Str("QED"))
  {
    GetAppend(QedConfig, QedEndpoint, [F("name")]);
  }

  /** The alerts endpoint's parameter dict holds only the SMARTS list. */
  lemma AlertsParamsKeys()
    ensures KeysAt(CustomAlertsConfig, AlertsEndpoint + [F("params")]) == {F("smarts")}
  {
    GetAppend(CustomAlertsConfig, AlertsEndpoint, [F("params")]);
  }

  /** The transform has exactly the keys the predictor writes into it. */
  lemma MwTransformKeys()
    ensures KeysAt(MolecularWeightConfig, MwTransform)
         == {F("type"), F("high"), F("low"), F("coef_div"), F("coef_si"), F("coef_se")}
  {
    GetAppend(MolecularWeightConfig, MwEndpoint, [F("transform")]);
  }

  /** The similarity parameters have exactly the keys the predictor writes into them. */
  lemma TanimotoParamsKeys()
    ensures KeysAt(TanimotoConfig, TanimotoParams)
         == {F("smiles"), F("radius"), F("use_counts"), F("use_features")}
  {
    GetAppend(TanimotoConfig, TanimotoEndpoint, [F("params")]);
  }

  /** Each PMI endpoint has a parameter dict holding only "property". */
  lemma PmiParamsKeys()
    ensures KeysAt(PmiConfig, PmiEndpoint1 + [F("params")]) == {F("property")}
    ensures KeysAt(PmiConfig, PmiEndpoint2 + [F("params")]) == {F("property")}
  {
    GetAppend(PmiConfig, PmiEndpoint1, [F("params")]);
    GetAppend(PmiConfig, PmiEndpoint2, [F("params")]);
  }
}
