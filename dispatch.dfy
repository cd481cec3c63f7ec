/**
 * The decisions `Reinvent4Predictor.predict` in app.py makes without touching
 * state: which family template a selector picks, which output column the
 * result is read from, and which leaf of the template each parameter field is
 * assigned to.
 */
module Dispatch {
  import opened Wrappers
  import opened Document
  import opened RunnerTemplates

  datatype Family = Alerts | Qed | MolecularWeight | Tanimoto | Pmi

  /** The template app.py binds to `scoring_component` for each family. */
  function InitialTemplate(f: Family): Value
  {
    match f
    case Alerts => CustomAlertsConfig
    case Qed => QedConfig
    case MolecularWeight => MolecularWeightConfig
    case Tanimoto => TanimotoConfig
    case Pmi => PmiConfig
  }

  // ---------------------------------------------------------------------
  // Choosing the family

  /** The two characters each `case` of `match self.selected_property[:2]` names. */
  function Code(f: Family): string
  {
    match f
    case Alerts => "al"
    case Qed => "qe"
    case MolecularWeight => "mw"
    case Tanimoto => "ta"
    case Pmi => "pm"
  }

  /** Python's `s[:2]`: the whole string when it is shorter. */
  function Head2(s: string): string
  {
    if |s| <= 2 then s else s[..2]
  }

  /** Python's `s[-4:]`: the whole string when it is shorter. */
  function Last4(s: string): string
  {
    if |s| <= 4 then s else s[|s| - 4..]
  }

  /** The family `predict` dispatches to; None where it returns "Error: Undefined property". */
  function FamilyOf(selector: string): (r: Option<Family>)
    ensures r.Some? ==> |selector| >= 2 && selector[..2] == Code(r.value)
    ensures r.None? ==> forall f :: Head2(selector) != Code(f)
  {
    var h := Head2(selector);
    if h == "al" then Some(Alerts)
    else if h == "qe" then Some(Qed)
    else if h == "mw" then Some(MolecularWeight)
    else if h == "ta" then Some(Tanimoto)
    else if h == "pm" then Some(Pmi)
    else None
  }

  /** Only the first two characters decide: selectors that share them share the family. */
  lemma PrefixDispatch(s: string, t: string)
    requires |s| >= 2 && |t| >= 2 && s[..2] == t[..2]
    ensures FamilyOf(s) == FamilyOf(t)
  {
  }

  /** Every selector that starts with a family's code picks that family, whatever follows. */
  lemma CodeDispatch(f: Family, rest: string)
    ensures FamilyOf(Code(f) + rest) == Some(f)
  {
    var s := Code(f) + rest;
    assert s[..2] == Code(f);
  }

  /** A selector shorter than two characters never picks a family. */
  lemma ShortSelector(s: string)
    requires |s| < 2
    ensures FamilyOf(s) == None
  {
  }

  // ---------------------------------------------------------------------
  // The output column label

  /** `get_csv_data_column_label(name, prop)` */
  function RawLabel(name: string, prop: string): string
  {
    name + (if Last4(prop) == "_raw" then " (raw)" else "")
  }

  predicate EndsWithRaw(s: string)
  {
    |s| >= 4 && s[|s| - 4..] == "_raw"
  }

  /** The label is the name, with " (raw)" appended exactly when the selector ends in "_raw". */
  lemma RawSuffixRule(name: string, prop: string)
    ensures EndsWithRaw(prop) ==> RawLabel(name, prop) == name + " (raw)"
    ensures !EndsWithRaw(prop) ==> RawLabel(name, prop) == name
  {
  }

  /** A selector and its "_raw" variant give the plain and the raw label of the same name. */
  lemma RawVariant(name: string, s: string)
    requires !EndsWithRaw(s)
    ensures RawLabel(name, s) == name
    ensures RawLabel(name, s + "_raw") == name + " (raw)"
  {
    assert (s + "_raw")[|s + "_raw"| - 4..] == "_raw";
  }

  const PmiSelectors: set<string> := {"pmi", "pmi2", "pmi_raw", "pmi2_raw"}

  /** The inner `match self.selected_property` of the PMI branch. */
  function PmiLabel(selector: string): Option<string>
  {
    if selector == "pmi" then Some("pmi")
    else if selector == "pmi2" then Some("pmi.2")
    else if selector == "pmi_raw" then Some("pmi (raw)")
    else if selector == "pmi2_raw" then Some("pmi (raw).2")
    else None
  }

  /** Exactly the four PMI selectors have a label. */
  lemma PmiLabelDefined(selector: string)
    ensures PmiLabel(selector).Some? <==> selector in PmiSelectors
  {
  }

  /**
   * Each PMI label is "pmi" under the raw-suffix rule, with ".2" after it when
   * the selector names the second endpoint.
   */
  lemma PmiLabelRule(selector: string)
    requires selector in PmiSelectors
    ensures PmiLabel(selector).Some?
    ensures PmiLabel(selector).value == RawLabel("pmi", selector) + (if |selector| > 3 && selector[3] == '2' then ".2" else "")
  {
    if selector == "pmi2_raw" {
      assert Last4(selector) == "_raw";
    } else if selector == "pmi_raw" {
      assert Last4(selector) == "_raw";
    }
  }

  // ---------------------------------------------------------------------
  // The predictor's parameter fields

  /**
   * The fields of `Reinvent4Predictor` that `predict` reads. Floats are kept
   * as reals and never computed on; `mw_weight` is declared `str` with a float
   * default, so it is carried as whatever value it holds.
   */
  datatype Params = Params(
    alertsName: string, alertsSmarts: seq<string>,
    qedName: string, qedWeight: real,
    mwName: string, mwWeight: Value, mwTransformType: string,
    mwTransformHigh: real, mwTransformLow: real,
    mwTransformCoefDiv: real, mwTransformCoefSi: real, mwTransformCoefSe: real,
    tanimotoName: string, tanimotoWeight: real, tanimotoSmiles: seq<string>,
    tanimotoRadius: int, tanimotoUseCounts: bool, tanimotoUseFeatures: bool,
    pmiName: string, pmiWeight1: real, pmiProperty1: string,
    pmiWeight2: real, pmiProperty2: string)

  /** The field defaults. */
  const DefaultParams: Params := Params(
    "Alerts", [],
    "QED", 0.25,
    "MW", Float(0.25), "double_sigmoid",
    500.0, 200.0,
    500.0, 20.0, 20.0,
    "Tanimoto similarity ECF6", 0.1,
    ["n1(nc(c(c1C)-c2n[nH]c(c2)[C@@]3([C@@H](CN(CC3)Cc4nc5c(c(n4)C)cccc5)O)OC)C)C"],
    3, true, true,
    "PMI 3D-likeness", 0.79, "npr1",
    0.21, "npr2")

  /** The names of `available_properties`, in order ("pmi_raw" is listed twice). */
  const AvailableProperties: seq<string> := [
    "alerts", "qed", "pmi", "pmi2", "pmi_raw", "pmi2_raw",
    "tanimoto", "mw", "qed_raw", "pmi_raw", "tanimoto_raw", "mw_raw"]

  /** The label each branch leaves in `csv_data_column_label`; None where the PMI branch returns its error. */
  function Label(f: Family, selector: string, p: Params): Option<string>
  {
    match f
    case Alerts => Some(p.alertsName)
    case Qed => Some(RawLabel(p.qedName, selector))
    case MolecularWeight => Some(RawLabel(p.mwName, selector))
    case Tanimoto => Some(RawLabel(p.tanimotoName, selector))
    case Pmi => PmiLabel(selector)
  }

  /** How far `predict` gets before it touches the runner. */
  datatype Resolution =
    | Undefined
    | Unlabelled(family: Family)
    | Resolved(family: Family, column: string)

  function Resolve(selector: string, p: Params): Resolution
  {
    match FamilyOf(selector)
    case None => Undefined
    case Some(f) =>
      match Label(f, selector, p)
      case None => Unlabelled(f)
      case Some(l) => Resolved(f, l)
  }

  /** Only a PMI selector outside the four known ones reaches a family and still fails. */
  lemma UnlabelledOnlyPmi(selector: string, p: Params)
    ensures Resolve(selector, p).Unlabelled? <==> FamilyOf(selector) == Some(Pmi) && selector !in PmiSelectors
    ensures Resolve(selector, p).Unlabelled? ==> Resolve(selector, p).family == Pmi
  {
    PmiLabelDefined(selector);
  }

  /** The alerts label is the configured name, with no raw suffix, whatever the selector. */
  lemma AlertsLabel(selector: string, p: Params)
    requires FamilyOf(selector) == Some(Alerts)
    ensures Resolve(selector, p) == Resolved(Alerts, p.alertsName)
    ensures Resolve(selector + "_raw", p) == Resolved(Alerts, p.alertsName)
  {
    assert (selector + "_raw")[..2] == selector[..2];
  }

  /**
   * The alerts branch stores the label it reads the result under: the
   * endpoint's "name" holds the configured name, and the SMARTS entry the
   * configured patterns.
   */
  lemma AlertsLabelStored(selector: string, p: Params, v: Value)
    requires FamilyOf(selector) == Some(Alerts) && Ready(Alerts, v)
    ensures ApplyWrites(v, Writes(Alerts, p)).Some?
    ensures Get(ApplyWrites(v, Writes(Alerts, p)).value, AlertsEndpoint + [F("name")]) == Some(Str(Resolve(selector, p).column))
    ensures Get(ApplyWrites(v, Writes(Alerts, p)).value, AlertsEndpoint + [F("params"), F("smarts")]) == Some(StrList(p.alertsSmarts))
  {
    AlertsLabel(selector, p);
    Overlay(Alerts, p, v);
    assert FamilyPaths(Alerts)[0] == AlertsEndpoint + [F("name")];
    assert FamilyPaths(Alerts)[1] == AlertsEndpoint + [F("params"), F("smarts")];
  }

  /**
   * The configured name of each family. NamedLabel uses it for QED, molecular
   * weight and Tanimoto, whose labels are built from it; the alerts label is
   * `alerts_name` itself, and the PMI labels come from PmiLabel, so those two
   * cases are not used as label bases.
   */
  function ConfiguredName(f: Family, p: Params): string
  {
    match f
    case Alerts => p.alertsName
    case Qed => p.qedName
    case MolecularWeight => p.mwName
    case Tanimoto => p.tanimotoName
    case Pmi => p.pmiName
  }

  /** For QED, molecular weight and Tanimoto the label is the configured name under the raw-suffix rule. */
  lemma NamedLabel(selector: string, p: Params)
    requires FamilyOf(selector) in {Some(Qed), Some(MolecularWeight), Some(Tanimoto)}
    ensures Resolve(selector, p).Resolved?
    ensures EndsWithRaw(selector) ==> Resolve(selector, p).column == ConfiguredName(FamilyOf(selector).value, p) + " (raw)"
    ensures !EndsWithRaw(selector) ==> Resolve(selector, p).column == ConfiguredName(FamilyOf(selector).value, p)
  {
    RawSuffixRule(ConfiguredName(FamilyOf(selector).value, p), selector);
  }

  /** Every advertised property name reaches the runner with a label. */
  lemma AvailableResolve(p: Params)
    ensures forall i | 0 <= i < |AvailableProperties| :: Resolve(AvailableProperties[i], p).Resolved?
  {
    forall i | 0 <= i < |AvailableProperties|
      ensures Resolve(AvailableProperties[i], p).Resolved?
    {
      if i < 4 {
        AvailableHead(p, i);
      } else if i < 8 {
        AvailableMiddle(p, i);
      } else {
        AvailableTail(p, i);
      }
    }
  }

  lemma AvailableHead(p: Params, i: int)
    requires 0 <= i < 4
    ensures Resolve(AvailableProperties[i], p).Resolved?
  {
    CodeDispatch(Alerts, "erts");
    CodeDispatch(Qed, "d");
    CodeDispatch(Pmi, "i");
    CodeDispatch(Pmi, "i2");
  }

  lemma AvailableMiddle(p: Params, i: int)
    requires 4 <= i < 8
    ensures Resolve(AvailableProperties[i], p).Resolved?
  {
    CodeDispatch(Pmi, "i_raw");
    CodeDispatch(Pmi, "i2_raw");
    CodeDispatch(Tanimoto, "nimoto");
    CodeDispatch(MolecularWeight, "");
  }

  lemma AvailableTail(p: Params, i: int)
    requires 8 <= i < 12
    ensures Resolve(AvailableProperties[i], p).Resolved?
  {
    CodeDispatch(Qed, "d_raw");
    CodeDispatch(Pmi, "i_raw");
    CodeDispatch(Tanimoto, "nimoto_raw");
    CodeDispatch(MolecularWeight, "_raw");
  }

  /** "qed" reaches QED with the configured name, "qed_raw" with its raw variant. */
  lemma QedExamples(p: Params)
    ensures Resolve("qed", p) == Resolved(Qed, p.qedName)
    ensures Resolve("qed_raw", p) == Resolved(Qed, p.qedName + " (raw)")
  {
    CodeDispatch(Qed, "d");
    assert Last4("qed") == "qed";
    CodeDispatch(Qed, "d_raw");
    assert Last4("qed_raw") == "_raw";
  }

  /** "bogus" matches no family. */
  lemma BogusExample(p: Params)
    ensures Resolve("bogus", p) == Undefined
  {
    assert Head2("bogus") == "bo";
  }

  /** "pmi3" reaches PMI and finds no label; "pmi2_raw" labels the second endpoint of the raw PMI column. */
  lemma PmiExamples(p: Params)
    ensures Resolve("pmi3", p) == Unlabelled(Pmi)
    ensures Resolve("pmi2_raw", p) == Resolved(Pmi, "pmi (raw).2")
  {
    CodeDispatch(Pmi, "i3");
    CodeDispatch(Pmi, "i2_raw");
  }

  // ---------------------------------------------------------------------
  // The parameter overlay

  /** The left-hand sides of each branch's assignments, in the order they run. */
  function FamilyPaths(f: Family): seq<Path>
  {
    match f
    case Alerts => [
      AlertsEndpoint + [F("name")],
      AlertsEndpoint + [F("params"), F("smarts")]]
    case Qed => [
      QedEndpoint + [At(0)],
      QedEndpoint + [F("weight")]]
    case MolecularWeight => [
      MwEndpoint + [F("name")],
      MwEndpoint + [F("weight")],
      MwTransform + [F("type")],
      MwTransform + [F("high")],
      MwTransform + [F("low")],
      MwTransform + [F("coef_div")],
      MwTransform + [F("coef_si")],
      MwTransform + [F("coef_se")]]
    case Tanimoto => [
      TanimotoEndpoint + [F("name")],
      TanimotoEndpoint + [F("weight")],
      TanimotoParams + [F("smiles")],
      TanimotoParams + [F("radius")],
      TanimotoParams + [F("use_counts")],
      TanimotoParams + [F("use_features")]]
    case Pmi => [
      PmiComponent + [F("name")],
      PmiEndpoint1 + [F("weight")],
      PmiEndpoint1 + [F("params"), F("property")],
      PmiEndpoint2 + [F("weight")],
      PmiEndpoint2 + [F("params"), F("property")]]
  }

  /** A Python list of str. */
  function StrList(xs: seq<string>): Value
  {
    List(seq(|xs|, i requires 0 <= i < |xs| => Str(xs[i])))
  }

  /** The right-hand sides of each branch's assignments, matching FamilyPaths one for one. */
  function FamilyValues(f: Family, p: Params): (r: seq<Value>)
    ensures |r| == |FamilyPaths(f)|
  {
    match f
    case Alerts => [Str(p.alertsName), StrList(p.alertsSmarts)]
    case Qed => [Str(p.qedName), Float(p.qedWeight)]
    case MolecularWeight => [
      Str(p.mwName), p.mwWeight, Str(p.mwTransformType),
      Float(p.mwTransformHigh), Float(p.mwTransformLow),
      Float(p.mwTransformCoefDiv), Float(p.mwTransformCoefSi), Float(p.mwTransformCoefSe)]
    case Tanimoto => [
      Str(p.tanimotoName), Float(p.tanimotoWeight), StrList(p.tanimotoSmiles),
      Int(p.tanimotoRadius), Bool(p.tanimotoUseCounts), Bool(p.tanimotoUseFeatures)]
    case Pmi => [
      Str(p.pmiName), Float(p.pmiWeight1), Str(p.pmiProperty1),
      Float(p.pmiWeight2), Str(p.pmiProperty2)]
  }

  /** The assignments `ps[i] = xs[i]`, one after another. */
  function Assign(ps: seq<Path>, xs: seq<Value>): seq<Write>
    requires |ps| == |xs|
  {
    seq(|ps|, i requires 0 <= i < |ps| => Write(ps[i], xs[i]))
  }

  /** The branch's block of assignments. */
  function Writes(f: Family, p: Params): seq<Write>
  {
    Assign(FamilyPaths(f), FamilyValues(f, p))
  }

  /** Every dict the branch assigns into exists. */
  predicate Ready(f: Family, v: Value)
  {
    forall i | 0 <= i < |FamilyPaths(f)| :: ParentIsDict(v, FamilyPaths(f)[i])
  }

  /** The path lies neither on the way to nor below any leaf the branch assigns. */
  predicate Untouched(f: Family, q: Path)
  {
    forall i | 0 <= i < |FamilyPaths(f)| :: Disjoint(q, FamilyPaths(f)[i])
  }

  /** No two assignments of a branch write on the way to one another. */
  lemma PathsDisjoint(f: Family)
    ensures forall i, j | 0 <= i < j < |FamilyPaths(f)| :: Disjoint(FamilyPaths(f)[i], FamilyPaths(f)[j])
  {
    var ps := FamilyPaths(f);
    forall i, j | 0 <= i < j < |ps|
      ensures Disjoint(ps[i], ps[j])
    {
      match f
      case Alerts => DifferAt(ps[i], ps[j], 4);
      case Qed => DifferAt(ps[i], ps[j], 4);
      case MolecularWeight => DifferAt(ps[i], ps[j], if i < 2 then 4 else 5);
      case Tanimoto => DifferAt(ps[i], ps[j], if i < 2 then 4 else 5);
      case Pmi => DifferAt(ps[i], ps[j], if i == 0 then 2 else if i < 3 && j >= 3 then 3 else 4);
    }
  }

  /** A dict at `base` is the parent of `base + [k]`. */
  lemma ChildOfDict(v: Value, base: Path, k: Key)
    requires IsDictAt(v, base)
    ensures ParentIsDict(v, base + [k])
  {
    assert (base + [k])[..|base|] == base;
  }

  lemma AlertsReady()
    ensures Ready(Alerts, CustomAlertsConfig)
  {
    var v := CustomAlertsConfig;
    AlertsParamsKeys();
    ChildOfDict(v, AlertsEndpoint, F("name"));
    ChildOfDict(v, AlertsEndpoint + [F("params")], F("smarts"));
    assert AlertsEndpoint + [F("params"), F("smarts")] == AlertsEndpoint + [F("params")] + [F("smarts")];
  }

  lemma QedReady()
    ensures Ready(Qed, QedConfig)
  {
    ChildOfDict(QedConfig, QedEndpoint, At(0));
    ChildOfDict(QedConfig, QedEndpoint, F("weight"));
  }

  lemma MolecularWeightReady()
    ensures Ready(MolecularWeight, MolecularWeightConfig)
  {
    var v := MolecularWeightConfig;
    MwTransformKeys();
    ChildOfDict(v, MwEndpoint, F("name"));
    ChildOfDict(v, MwEndpoint, F("weight"));
    forall k {
      ChildOfDict(v, MwTransform, k);
    }
  }

  lemma TanimotoReady()
    ensures Ready(Tanimoto, TanimotoConfig)
  {
    var v := TanimotoConfig;
    TanimotoParamsKeys();
    ChildOfDict(v, TanimotoEndpoint, F("name"));
    ChildOfDict(v, TanimotoEndpoint, F("weight"));
    forall k {
      ChildOfDict(v, TanimotoParams, k);
    }
  }

  /** The PMI component and both its endpoints are dicts. */
  lemma PmiDicts()
    ensures IsDictAt(PmiConfig, PmiComponent)
    ensures IsDictAt(PmiConfig, PmiEndpoint1)
    ensures IsDictAt(PmiConfig, PmiEndpoint2)
  {
  }

  lemma PmiReady()
    ensures Ready(Pmi, PmiConfig)
  {
    var v := PmiConfig;
    PmiDicts();
    PmiParamsKeys();
    ChildOfDict(v, PmiComponent, F("name"));
    ChildOfDict(v, PmiEndpoint1, F("weight"));
    ChildOfDict(v, PmiEndpoint2, F("weight"));
    ChildOfDict(v, PmiEndpoint1 + [F("params")], F("property"));
    ChildOfDict(v, PmiEndpoint2 + [F("params")], F("property"));
    assert PmiEndpoint1 + [F("params"), F("property")] == PmiEndpoint1 + [F("params")] + [F("property")];
    assert PmiEndpoint2 + [F("params"), F("property")] == PmiEndpoint2 + [F("params")] + [F("property")];
  }

  /** Every template as published has every dict its branch assigns into. */
  lemma TemplatesReady(f: Family)
    ensures Ready(f, InitialTemplate(f))
  {
    match f
    case Alerts => AlertsReady();
    case Qed => QedReady();
    case MolecularWeight => MolecularWeightReady();
    case Tanimoto => TanimotoReady();
    case Pmi => PmiReady();
  }

  /**
   * A block of assignments to pairwise disjoint paths, each into a dict that
   * exists, succeeds; afterwards each path holds its value, every path away
   * from them reads as before, and the block could run again.
   */
  lemma AssignBlock(v: Value, ps: seq<Path>, xs: seq<Value>)
    requires |ps| == |xs|
    requires forall i, j | 0 <= i < j < |ps| :: Disjoint(ps[i], ps[j])
    requires forall i | 0 <= i < |ps| :: ParentIsDict(v, ps[i])
    ensures ApplyWrites(v, Assign(ps, xs)).Some?
    ensures forall i | 0 <= i < |ps| :: Get(ApplyWrites(v, Assign(ps, xs)).value, ps[i]) == Some(xs[i])
    ensures forall i | 0 <= i < |ps| :: ParentIsDict(ApplyWrites(v, Assign(ps, xs)).value, ps[i])
  {
    var ws := Assign(ps, xs);
    WritesApply(v, ws);
    WritesKeepParents(v, ws);
    forall i | 0 <= i < |ps|
      ensures Get(ApplyWrites(v, ws).value, ps[i]) == Some(xs[i])
      ensures ParentIsDict(ApplyWrites(v, ws).value, ps[i])
    {
      assert ws[i] == Write(ps[i], xs[i]);
    }
  }

  /**
   * A branch's block, run on a template that has the dicts it assigns into,
   * succeeds; afterwards each assigned leaf holds its parameter value, every
   * path away from the assigned leaves reads as before, and the block could
   * run again.
   */
  lemma Overlay(f: Family, p: Params, v: Value)
    requires Ready(f, v)
    ensures ApplyWrites(v, Writes(f, p)).Some?
    ensures forall i | 0 <= i < |FamilyPaths(f)| ::
      Get(ApplyWrites(v, Writes(f, p)).value, FamilyPaths(f)[i]) == Some(FamilyValues(f, p)[i])
    ensures forall q | Untouched(f, q) :: Get(ApplyWrites(v, Writes(f, p)).value, q) == Get(v, q)
    ensures Ready(f, ApplyWrites(v, Writes(f, p)).value)
  {
    var ws := Writes(f, p);
    PathsDisjoint(f);
    AssignBlock(v, FamilyPaths(f), FamilyValues(f, p));
    forall q | Untouched(f, q)
      ensures Get(ApplyWrites(v, ws).value, q) == Get(v, q)
    {
      WritesFrame(v, ws, q);
    }
  }

  /** A branch's block adds to a dict it does not replace exactly the keys it assigns in it. */
  lemma OverlayKeys(f: Family, p: Params, v: Value, q: Path)
    requires Ready(f, v) && IsDictAt(v, q)
    requires forall i | 0 <= i < |FamilyPaths(f)| :: !IsPrefix(FamilyPaths(f)[i], q)
    ensures ApplyWrites(v, Writes(f, p)).Some?
    ensures KeysAt(ApplyWrites(v, Writes(f, p)).value, q) == KeysAt(v, q) + BlockKeys(q, Writes(f, p))
  {
    var ws := Writes(f, p);
    PathsDisjoint(f);
    assert forall i | 0 <= i < |ws| :: ws[i].path == FamilyPaths(f)[i];
    WritesKeys(v, ws, q);
  }

  /**
   * The QED branch assigns the name under the int key 0: the endpoint gains
   * that key, and its "name" entry keeps whatever it held.
   */
  lemma QedNameQuirk(p: Params, v: Value)
    requires Ready(Qed, v)
    ensures ApplyWrites(v, Writes(Qed, p)).Some?
    ensures Get(ApplyWrites(v, Writes(Qed, p)).value, QedEndpoint + [At(0)]) == Some(Str(p.qedName))
    ensures Get(ApplyWrites(v, Writes(Qed, p)).value, QedEndpoint + [F("name")]) == Get(v, QedEndpoint + [F("name")])
  {
    var ps := FamilyPaths(Qed);
    var named := QedEndpoint + [F("name")];
    DifferAt(named, ps[0], 4);
    DifferAt(named, ps[1], 4);
    assert Untouched(Qed, named);
    Overlay(Qed, p, v);
  }

  /** The QED branch adds the int key 0 to the endpoint dict, beside "weight". */
  lemma QedKeys(p: Params, v: Value)
    requires Ready(Qed, v)
    ensures ApplyWrites(v, Writes(Qed, p)).Some?
    ensures KeysAt(ApplyWrites(v, Writes(Qed, p)).value, QedEndpoint) == KeysAt(v, QedEndpoint) + {At(0), F("weight")}
  {
    var ws := Writes(Qed, p);
    var ps := FamilyPaths(Qed);
    assert ps[0][..4] == QedEndpoint && ps[1][..4] == QedEndpoint;
    OverlayKeys(Qed, p, v, QedEndpoint);
    assert BlockKeys(QedEndpoint, ws[1..]) == {F("weight")} by {
      assert ws[1..][1..] == [];
    }
  }

  /**
   * On the template as published, the stored QED name stays "QED" whatever
   * name is configured, while the label is built from the configured name.
   */
  lemma QedNameNotStored(selector: string, p: Params)
    requires FamilyOf(selector) == Some(Qed)
    ensures ApplyWrites(QedConfig, Writes(Qed, p)).Some?
    ensures Get(ApplyWrites(QedConfig, Writes(Qed, p)).value, QedEndpoint + [F("name")]) == Some(Str("QED"))
    ensures KeysAt(ApplyWrites(QedConfig, Writes(Qed, p)).value, QedEndpoint) == {F("name"), F("weight"), At(0)}
    ensures Resolve(selector, p) == Resolved(Qed, RawLabel(p.qedName, selector))
  {
    QedReady();
    QedEndpointKeys();
    QedNameQuirk(p, QedConfig);
    QedKeys(p, QedConfig);
  }

  const TransformKeys: set<Key> := {F("type"), F("high"), F("low"), F("coef_div"), F("coef_si"), F("coef_se")}

  /** The keys the molecular-weight branch assigns in the transform. */
  lemma MwBlockKeys(p: Params)
    ensures BlockKeys(MwTransform, Writes(MolecularWeight, p)) == TransformKeys
  {
    var ws, t := Writes(MolecularWeight, p), MwTransform;
    MwTransformBlockKeys(p);
    AwayStep(t, ws, 1, 4);
    AwayStep(t, ws, 0, 4);
    assert ws[0..] == ws;
  }

  /** The six assignments into the transform add its six keys. */
  lemma MwTransformBlockKeys(p: Params)
    ensures BlockKeys(MwTransform, Writes(MolecularWeight, p)[2..]) == TransformKeys
  {
    var ws, t := Writes(MolecularWeight, p), MwTransform;
    MwCoefficientKeys(p);
    ChildStep(t, ws, 4, F("low"));
    ChildStep(t, ws, 3, F("high"));
    ChildStep(t, ws, 2, F("type"));
  }

  /** The last three assignments of the branch add the three sigmoid coefficients to the transform. */
  lemma MwCoefficientKeys(p: Params)
    ensures BlockKeys(MwTransform, Writes(MolecularWeight, p)[5..]) == {F("coef_div"), F("coef_si"), F("coef_se")}
  {
    var ws, t := Writes(MolecularWeight, p), MwTransform;
    assert ws[8..] == [];
    ChildStep(t, ws, 7, F("coef_se"));
    ChildStep(t, ws, 6, F("coef_si"));
    ChildStep(t, ws, 5, F("coef_div"));
  }

  /** The molecular-weight branch adds to the transform only the six keys it has on the template as published. */
  lemma MwTransformShape(p: Params, v: Value)
    requires Ready(MolecularWeight, v)
    ensures ApplyWrites(v, Writes(MolecularWeight, p)).Some?
    ensures KeysAt(ApplyWrites(v, Writes(MolecularWeight, p)).value, MwTransform) == KeysAt(v, MwTransform) + TransformKeys
  {
    var ps := FamilyPaths(MolecularWeight);
    assert ParentIsDict(v, ps[2]);
    assert ps[2][..|ps[2]| - 1] == MwTransform;
    assert IsDictAt(v, MwTransform);
    forall j | 0 <= j < |ps|
      ensures !IsPrefix(ps[j], MwTransform)
    {
      if j < 2 {
        DifferAt(ps[j], MwTransform, 4);
      }
    }
    MwBlockKeys(p);
    OverlayKeys(MolecularWeight, p, v, MwTransform);
  }

  const SimilarityKeys: set<Key> := {F("smiles"), F("radius"), F("use_counts"), F("use_features")}

  /** The keys the Tanimoto branch assigns in its parameter dict. */
  lemma TanimotoBlockKeys(p: Params)
    ensures BlockKeys(TanimotoParams, Writes(Tanimoto, p)) == SimilarityKeys
  {
    var ws, t := Writes(Tanimoto, p), TanimotoParams;
    TanimotoFlagKeys(p);
    ChildStep(t, ws, 3, F("radius"));
    ChildStep(t, ws, 2, F("smiles"));
    assert BlockKeys(t, ws[2..]) == SimilarityKeys;
    AwayStep(t, ws, 1, 4);
    AwayStep(t, ws, 0, 4);
    assert ws[0..] == ws;
  }

  /** The last two assignments of the branch add the two fingerprint flags to the parameter dict. */
  lemma TanimotoFlagKeys(p: Params)
    ensures BlockKeys(TanimotoParams, Writes(Tanimoto, p)[4..]) == {F("use_counts"), F("use_features")}
  {
    var ws, t := Writes(Tanimoto, p), TanimotoParams;
    assert ws[6..] == [];
    ChildStep(t, ws, 5, F("use_features"));
    ChildStep(t, ws, 4, F("use_counts"));
  }

  /** The Tanimoto branch adds to its parameter dict only the four keys it has on the template as published. */
  lemma TanimotoParamsShape(p: Params, v: Value)
    requires Ready(Tanimoto, v)
    ensures ApplyWrites(v, Writes(Tanimoto, p)).Some?
    ensures KeysAt(ApplyWrites(v, Writes(Tanimoto, p)).value, TanimotoParams) == KeysAt(v, TanimotoParams) + SimilarityKeys
  {
    var ps := FamilyPaths(Tanimoto);
    assert ParentIsDict(v, ps[2]);
    assert ps[2][..|ps[2]| - 1] == TanimotoParams;
    assert IsDictAt(v, TanimotoParams);
    forall j | 0 <= j < |ps|
      ensures !IsPrefix(ps[j], TanimotoParams)
    {
      if j < 2 {
        DifferAt(ps[j], TanimotoParams, 4);
      }
    }
    TanimotoBlockKeys(p);
    OverlayKeys(Tanimoto, p, v, TanimotoParams);
  }

  /** The keys the PMI branch assigns in the parameter dict of endpoint i. */
  lemma PmiBlockKeys(p: Params, i: int)
    requires i == 0 || i == 1
    ensures BlockKeys(EndpointPath("pmi", i) + [F("params")], Writes(Pmi, p)) == {F("property")}
  {
    var ws, t := Writes(Pmi, p), EndpointPath("pmi", i) + [F("params")];
    var mine, other := if i == 0 then 2 else 4, if i == 0 then 4 else 2;
    assert ws[5..] == [];
    forall j | 0 <= j < 5
      ensures BlockKeys(t, ws[j..]) == AddedKey(t, ws[j].path) + BlockKeys(t, ws[j + 1..])
    {
      BlockKeysFrom(t, ws, j);
    }
    assert ws[mine].path == t + [F("property")];
    AddedChildKey(t, F("property"));
    DifferAt(ws[other].path, t, 3);
    NoAddedKey(t, ws[other].path);
    NoAddedKey(t, ws[0].path);
    NoAddedKey(t, ws[1].path);
    NoAddedKey(t, ws[3].path);
    assert ws[0..] == ws;
  }

  /** The PMI branch adds to each endpoint's parameter dict only "property", the one key it has on the template as published. */
  lemma PmiParamsShape(p: Params, v: Value, i: int)
    requires Ready(Pmi, v) && (i == 0 || i == 1)
    ensures ApplyWrites(v, Writes(Pmi, p)).Some?
    ensures KeysAt(ApplyWrites(v, Writes(Pmi, p)).value, EndpointPath("pmi", i) + [F("params")])
         == KeysAt(v, EndpointPath("pmi", i) + [F("params")]) + {F("property")}
  {
    var ps, t := FamilyPaths(Pmi), EndpointPath("pmi", i) + [F("params")];
    var mine, other := if i == 0 then 2 else 4, if i == 0 then 4 else 2;
    assert ps[mine] == t + [F("property")];
    assert ParentIsDict(v, ps[mine]);
    assert ps[mine][..|ps[mine]| - 1] == t;
    assert IsDictAt(v, t);
    forall j | 0 <= j < |ps|
      ensures !IsPrefix(ps[j], t)
    {
      if j == 0 {
        DifferAt(ps[0], t, 2);
      } else if j == 1 || j == 3 {
        DifferAt(ps[j], t, 4);
      } else if j == other {
        DifferAt(ps[other], t, 3);
      }
    }
    PmiBlockKeys(p, i);
    OverlayKeys(Pmi, p, v, t);
  }

  /**
   * Run on the templates as published, the molecular-weight, Tanimoto and PMI
   * branches only replace leaves: each dict they assign into keeps its keys.
   */
  lemma OverlaysKeepShape(p: Params)
    ensures ApplyWrites(MolecularWeightConfig, Writes(MolecularWeight, p)).Some?
    ensures KeysAt(ApplyWrites(MolecularWeightConfig, Writes(MolecularWeight, p)).value, MwTransform)
         == KeysAt(MolecularWeightConfig, MwTransform)
    ensures ApplyWrites(TanimotoConfig, Writes(Tanimoto, p)).Some?
    ensures KeysAt(ApplyWrites(TanimotoConfig, Writes(Tanimoto, p)).value, TanimotoParams)
         == KeysAt(TanimotoConfig, TanimotoParams)
    ensures ApplyWrites(PmiConfig, Writes(Pmi, p)).Some?
    ensures KeysAt(ApplyWrites(PmiConfig, Writes(Pmi, p)).value, PmiEndpoint1 + [F("params")])
         == KeysAt(PmiConfig, PmiEndpoint1 + [F("params")])
    ensures KeysAt(ApplyWrites(PmiConfig, Writes(Pmi, p)).value, PmiEndpoint2 + [F("params")])
         == KeysAt(PmiConfig, PmiEndpoint2 + [F("params")])
  {
    MolecularWeightReady();
    MwTransformKeys();
    MwTransformShape(p, MolecularWeightConfig);
    TanimotoReady();
    TanimotoParamsKeys();
    TanimotoParamsShape(p, TanimotoConfig);
    PmiReady();
    PmiParamsKeys();
    PmiParamsShape(p, PmiConfig, 0);
    PmiParamsShape(p, PmiConfig, 1);
  }
}
