/**
 * The module-level objects `Reinvent4Predictor.predict` works on, and
 * `predict` itself: the shared `scoring_config` and family templates it
 * overwrites in place, and the temp files it leaves on disk.
 */
module Predictor {
  import opened Wrappers
  import opened Document
  import opened RunnerTemplates
  import opened Dispatch
  import opened Assembly
  import opened Results
  import JsonText

  class Globals {
    /** `scoring_config`, apart from what its component slot refers to (see `component`). */
    var scoringConfig: Value
    var customAlertsConfig: Value
    var qedConfig: Value
    var molecularWeightConfig: Value
    var tanimotoConfig: Value
    var pmiConfig: Value
    /**
     * The template `scoring_config["scoring"]["component"]` refers to, once a
     * call has plugged one in. The slot holds the template object itself, not
     * a copy, so later assignments to that template show through it.
     */
    var component: Option<Family>
    /**
     * The temp files on disk, by name, with their contents: what `predict`
     * wrote into the input file, and what the runner wrote into the output file.
     */
    var files: map<string, string>

    /** The module-level template of a family. */
    function Template(f: Family): Value
      reads this`customAlertsConfig, this`qedConfig, this`molecularWeightConfig, this`tanimotoConfig, this`pmiConfig
    {
      match f
      case Alerts => customAlertsConfig
      case Qed => qedConfig
      case MolecularWeight => molecularWeightConfig
      case Tanimoto => tanimotoConfig
      case Pmi => pmiConfig
    }

    /** Every assignment `predict` makes can be made: the dicts it assigns into exist. */
    ghost predicate Valid()
      reads this`scoringConfig, this`customAlertsConfig, this`qedConfig, this`molecularWeightConfig, this`tanimotoConfig, this`pmiConfig
    {
      && ScoringShape(scoringConfig)
      && forall f :: Ready(f, Template(f))
    }

    /** `scoring_config` as Python sees it: the component slot shows the current state of the template it refers to. */
    function ScoringConfigView(): Value
      reads this
    {
      match component
      case None => scoringConfig
      case Some(f) =>
        match Put(scoringConfig, ComponentPath, Template(f))
        case Some(v) => v
        case None => scoringConfig
    }

    /** `extract_sections(scoring_config)`: what the runner is handed. */
    function RunnerInput(): Value
      reads this
    {
      var view := ScoringConfigView();
      if view.Obj? then Obj(ExtractSections(view.fields)) else view
    }

    /** The module-level objects as runner_templates.py publishes them, with no temp file yet. */
    constructor ()
      ensures Valid()
      ensures scoringConfig == ScoringConfig && component == None && files == map[]
      ensures forall f :: Template(f) == InitialTemplate(f)
    {
      scoringConfig := ScoringConfig;
      customAlertsConfig := CustomAlertsConfig;
      qedConfig := QedConfig;
      molecularWeightConfig := MolecularWeightConfig;
      tanimotoConfig := TanimotoConfig;
      pmiConfig := PmiConfig;
      component := None;
      files := map[];
      new;
      PublishedShape();
      forall f
        ensures Ready(f, Template(f))
      {
        TemplatesReady(f);
      }
    }

    lemma TemplateReady(f: Family)
      requires Valid()
      ensures Ready(f, Template(f))
    {
    }

    /**
     * What the runner is handed once a template is plugged in: "parameters"
     * and "scoring" only, with the file names as assigned, and the current
     * state of the plugged-in template as the component.
     */
    lemma RunnerInputShape()
      requires Valid() && component.Some?
      ensures RunnerInput().Obj?
      ensures RunnerInput().fields.Keys == {F("parameters"), F("scoring")}
      ensures Get(RunnerInput(), ComponentPath) == Some(Template(component.value))
      ensures Get(RunnerInput(), SmilesFilePath) == Get(scoringConfig, SmilesFilePath)
      ensures Get(RunnerInput(), OutputCsvPath) == Get(scoringConfig, OutputCsvPath)
    {
      var t := Template(component.value);
      PlugComponent(scoringConfig, t);
      var view := ScoringConfigView();
      assert view == Put(scoringConfig, ComponentPath, t).value;
      RunnerSections(view);
      var input := RunnerInput();
      GetThroughSameEntry(input, view, ComponentPath);
      GetThroughSameEntry(input, view, SmilesFilePath);
      GetThroughSameEntry(input, view, OutputCsvPath);
      DifferAt(SmilesFilePath, ComponentPath, 0);
      DifferAt(OutputCsvPath, ComponentPath, 0);
    }

    /** An assignment through `scoring_component`, the name `predict` binds to family f's template. */
    method WriteTemplate(f: Family, v: Value)
      modifies this
      ensures Template(f) == v
      ensures forall g | g != f :: Template(g) == old(Template(g))
      ensures scoringConfig == old(scoringConfig) && component == old(component) && files == old(files)
    {
      match f
      case Alerts => customAlertsConfig := v;
      case Qed => qedConfig := v;
      case MolecularWeight => molecularWeightConfig := v;
      case Tanimoto => tanimotoConfig := v;
      case Pmi => pmiConfig := v;
    }

    /**
     * The two temp files are created, the sample written into the input one,
     * and their names assigned into `scoring_config["parameters"]`.
     */
    method CreateFiles(sample: string, inputName: string, outputName: string)
      requires Valid()
      modifies this
      ensures Valid()
      ensures files == old(files)[inputName := sample][outputName := ""]
      ensures Some(scoringConfig) == ApplyWrites(old(scoringConfig), FileWrites(inputName, outputName))
      ensures Get(scoringConfig, SmilesFilePath) == Some(Str(inputName))
      ensures Get(scoringConfig, OutputCsvPath) == Some(Str(outputName))
      ensures forall g :: Template(g) == old(Template(g))
      ensures component == old(component)
    {
      files := files[inputName := sample][outputName := ""];
      SetFileNames(scoringConfig, inputName, outputName);
      FileNamesKeepShape(scoringConfig, inputName, outputName);
      scoringConfig := ApplyWrites(scoringConfig, FileWrites(inputName, outputName)).value;
    }

    /** The branch of family f assigns the parameter fields into its template. */
    method OverlayFamily(f: Family, p: Params)
      requires Valid()
      modifies this
      ensures Valid()
      ensures Some(Template(f)) == ApplyWrites(old(Template(f)), Writes(f, p))
      ensures forall g | g != f :: Template(g) == old(Template(g))
      ensures scoringConfig == old(scoringConfig) && component == old(component) && files == old(files)
    {
      var values := p;
      if f == Alerts {
        // The SMARTS list goes through `json.dumps` and back through `json.loads`.
        var loaded := JsonText.Loads(JsonText.Dumps(p.alertsSmarts));
        JsonText.RoundTrip(p.alertsSmarts);
        values := p.(alertsSmarts := loaded.value);
      }
      TemplateReady(f);
      Overlay(f, values, Template(f));
      WriteTemplate(f, ApplyWrites(Template(f), Writes(f, values)).value);
      assert values == p;
    }

    /** `scoring_config["scoring"]["component"] = scoring_component` */
    method PlugIn(f: Family)
      requires Valid()
      modifies this
      ensures Valid()
      ensures component == Some(f)
      ensures scoringConfig == old(scoringConfig) && files == old(files)
      ensures forall g :: Template(g) == old(Template(g))
      ensures RunnerInput().Obj?
      ensures RunnerInput().fields.Keys == {F("parameters"), F("scoring")}
      ensures Get(RunnerInput(), ComponentPath) == Some(Template(f))
      ensures Get(RunnerInput(), SmilesFilePath) == Get(scoringConfig, SmilesFilePath)
      ensures Get(RunnerInput(), OutputCsvPath) == Get(scoringConfig, OutputCsvPath)
    {
      component := Some(f);
      RunnerInputShape();
    }

    /**
     * The template is plugged into `scoring_config`, the runner is handed the
     * filtered configuration, the first row of its output is read in the
     * label's column, and on success both temp files are removed. Otherwise
     * the output file keeps what the runner wrote into it.
     */
    method Launch(f: Family, column: string, inputName: string, outputName: string,
                  engine: (Value, map<string, string>) -> EngineRun)
      returns (result: Outcome)
      requires Valid()
      requires Get(scoringConfig, SmilesFilePath) == Some(Str(inputName))
      requires Get(scoringConfig, OutputCsvPath) == Some(Str(outputName))
      modifies this
      ensures Valid()
      ensures scoringConfig == old(scoringConfig)
      ensures forall g :: Template(g) == old(Template(g))
      ensures component == Some(f)
      ensures RunnerInput().Obj?
      ensures RunnerInput().fields.Keys == {F("parameters"), F("scoring")}
      ensures Get(RunnerInput(), SmilesFilePath) == Some(Str(inputName))
      ensures Get(RunnerInput(), OutputCsvPath) == Some(Str(outputName))
      ensures Get(RunnerInput(), ComponentPath) == Some(Template(f))
      ensures result == Finish(engine(RunnerInput(), old(files)), column)
      ensures files == if result.Score? then old(files) - {inputName, outputName}
                       else old(files)[outputName := engine(RunnerInput(), old(files)).output]
    {
      PlugIn(f);
      var run := engine(RunnerInput(), files);
      files := files[outputName := run.output];
      result := Finish(run, column);
      if result.Score? {
        files := files - {inputName, outputName};
        assert files == old(files) - {inputName, outputName} by {
          assert files.Keys == old(files).Keys - {inputName, outputName};
        }
      }
    }

    /**
     * What `predict` does once the selector has named family f: the branch's
     * assignments, the label lookup, and, when a label is found, the runner
     * call, the reading of the output and the removal of the temp files.
     */
    method RunFamily(f: Family, selector: string, p: Params, inputName: string, outputName: string,
                     engine: (Value, map<string, string>) -> EngineRun)
      returns (result: Outcome)
      requires Valid()
      requires FamilyOf(selector) == Some(f)
      requires Get(scoringConfig, SmilesFilePath) == Some(Str(inputName))
      requires Get(scoringConfig, OutputCsvPath) == Some(Str(outputName))
      modifies this
      ensures Valid()
      ensures scoringConfig == old(scoringConfig)
      ensures Some(Template(f)) == ApplyWrites(old(Template(f)), Writes(f, p))
      ensures forall g | g != f :: Template(g) == old(Template(g))
      ensures Resolve(selector, p).Unlabelled? ==> result == ErrorList([PmiLabelsNotFound]) && component == old(component)
      ensures Resolve(selector, p).Resolved? ==>
        && component == Some(f)
        && RunnerInput().Obj?
        && RunnerInput().fields.Keys == {F("parameters"), F("scoring")}
        && Get(RunnerInput(), SmilesFilePath) == Some(Str(inputName))
        && Get(RunnerInput(), OutputCsvPath) == Some(Str(outputName))
        && Get(RunnerInput(), ComponentPath) == Some(Template(f))
        && result == Finish(engine(RunnerInput(), old(files)), Resolve(selector, p).column)
        && files == if result.Score? then old(files) - {inputName, outputName}
                    else old(files)[outputName := engine(RunnerInput(), old(files)).output]
      ensures !Resolve(selector, p).Resolved? ==> files == old(files)
    {
      OverlayFamily(f, p);
      var column := Label(f, selector, p);
      assert Resolve(selector, p) == if column.None? then Unlabelled(f) else Resolved(f, column.value);
      if column.None? {
        return ErrorList([PmiLabelsNotFound]);
      }
      result := Launch(f, column.value, inputName, outputName, engine);
    }

    /**
     * Everything `predict` does after the temp files exist: the selector picks
     * the family, and the family's branch runs, or the error comes back.
     */
    method Branch(selector: string, p: Params, inputName: string, outputName: string,
                    engine: (Value, map<string, string>) -> EngineRun)
      returns (result: Outcome)
      requires Valid()
      requires Get(scoringConfig, SmilesFilePath) == Some(Str(inputName))
      requires Get(scoringConfig, OutputCsvPath) == Some(Str(outputName))
      modifies this
      ensures Valid()
      ensures scoringConfig == old(scoringConfig)
      ensures FamilyOf(selector).Some? ==>
        var f := FamilyOf(selector).value;
        Some(Template(f)) == ApplyWrites(old(Template(f)), Writes(f, p))
      ensures forall g | FamilyOf(selector) != Some(g) :: Template(g) == old(Template(g))
      ensures component == (if Resolve(selector, p).Resolved? then Some(Resolve(selector, p).family) else old(component))
      ensures Resolve(selector, p).Undefined? ==> result == ErrorList([UndefinedProperty])
      ensures Resolve(selector, p).Unlabelled? ==> result == ErrorList([PmiLabelsNotFound])
      ensures Resolve(selector, p).Resolved? ==>
        && RunnerInput().Obj?
        && RunnerInput().fields.Keys == {F("parameters"), F("scoring")}
        && Get(RunnerInput(), SmilesFilePath) == Some(Str(inputName))
        && Get(RunnerInput(), OutputCsvPath) == Some(Str(outputName))
        && Get(RunnerInput(), ComponentPath) == Some(Template(Resolve(selector, p).family))
        && result == Finish(engine(RunnerInput(), old(files)), Resolve(selector, p).column)
        && files == if result.Score? then old(files) - {inputName, outputName}
                    else old(files)[outputName := engine(RunnerInput(), old(files)).output]
      ensures !Resolve(selector, p).Resolved? ==> files == old(files)
    {
      var family := FamilyOf(selector);
      if family.None? {
        return ErrorList([UndefinedProperty]);
      }
      result := RunFamily(family.value, selector, p, inputName, outputName, engine);
    }

    /**
     * `predict(sample)` with `self.selected_property == selector` and the
     * parameter fields `p`. The two temp-file names come from the operating
     * system, which makes them new and distinct; `engine` stands for the
     * runner, reading the configuration it is handed and the files on disk.
     */
    method Predict(selector: string, p: Params, sample: string, inputName: string, outputName: string,
                   engine: (Value, map<string, string>) -> EngineRun)
      returns (result: Outcome)
      requires Valid()
      requires inputName != outputName && inputName !in files && outputName !in files
      modifies this
      ensures Valid()
      // The file names are assigned on every path, before the selector is looked at.
      ensures Some(scoringConfig) == ApplyWrites(old(scoringConfig), FileWrites(inputName, outputName))
      // The chosen family's template is overwritten in place, even when the PMI label is then not found.
      ensures FamilyOf(selector).Some? ==>
        var f := FamilyOf(selector).value;
        Some(Template(f)) == ApplyWrites(old(Template(f)), Writes(f, p))
      ensures forall g | FamilyOf(selector) != Some(g) :: Template(g) == old(Template(g))
      // The component slot is rebound only on the way to the runner.
      ensures component == (if Resolve(selector, p).Resolved? then Some(Resolve(selector, p).family) else old(component))
      ensures Resolve(selector, p).Undefined? ==> result == ErrorList([UndefinedProperty])
      ensures Resolve(selector, p).Unlabelled? ==> result == ErrorList([PmiLabelsNotFound])
      ensures Resolve(selector, p).Resolved? ==>
        && RunnerInput().Obj?
        && RunnerInput().fields.Keys == {F("parameters"), F("scoring")}
        && Get(RunnerInput(), SmilesFilePath) == Some(Str(inputName))
        && Get(RunnerInput(), OutputCsvPath) == Some(Str(outputName))
        && Get(RunnerInput(), ComponentPath) == Some(Template(Resolve(selector, p).family))
        && result == Finish(engine(RunnerInput(), old(files)[inputName := sample][outputName := ""]), Resolve(selector, p).column)
      // Both temp files are removed on success only; otherwise the output file
      // holds what the runner wrote, or stays empty when the runner was not called.
      ensures Resolve(selector, p).Resolved? ==>
        files == if result.Score? then old(files)
                 else old(files)[inputName := sample][outputName := engine(RunnerInput(), old(files)[inputName := sample][outputName := ""]).output]
      ensures !Resolve(selector, p).Resolved? ==> files == old(files)[inputName := sample][outputName := ""]
    {
      ghost var before := files;
      CreateFiles(sample, inputName, outputName);
      ghost var created := files;
      assert created - {inputName, outputName} == before by {
        assert created.Keys - {inputName, outputName} == before.Keys;
      }
      result := Branch(selector, p, inputName, outputName, engine);
    }
  }

  // ---------------------------------------------------------------------
  // One call on the published objects

  /**
   * A fresh start with the default parameter fields and any sample: "qed",
   * with a runner whose output file reads `QED` then `0.91`, scores 0.91 and
   * removes both temp files. This is the defaults example: `p` is a
   * parameter, pinned to DefaultParams, only so that the verifier does not
   * unfold the constant.
   */
  method QedEndToEnd(p: Params, sample: string) returns (result: Outcome, left: map<string, string>)
    requires p == DefaultParams
    ensures result == Score("0.91")
    ensures left == map[]
  {
    var g := new Globals();
    QedExamples(p);
    ReadExamplesQed();
    result := g.Predict("qed", p, sample, "in.smi", "out.csv", QedRunner);
    left := g.files;
  }

  /** A runner that writes one QED score of 0.91, whatever it is handed. */
  function QedRunner(config: Value, files: map<string, string>): EngineRun
  {
    Completed("QED\n0.91\n", [map["QED" := "0.91"]])
  }

  /** That runner's output, read in the "QED" column, is the score 0.91. */
  lemma ReadExamplesQed()
    ensures forall config, files :: Finish(QedRunner(config, files), "QED") == Score("0.91")
  {
    var row: Row := map["QED" := "0.91"];
    assert "QED" in row;
  }

  /**
   * "bogus" is refused before the runner is called, and both temp files stay
   * on disk: the input file with the sample, the output file empty.
   */
  method BogusEndToEnd() returns (result: Outcome, left: map<string, string>)
    ensures result == ErrorList([UndefinedProperty])
    ensures left == map["in.smi" := "CCO", "out.csv" := ""]
  {
    var g := new Globals();
    BogusExample(DefaultParams);
    result := g.Predict("bogus", DefaultParams, "CCO", "in.smi", "out.csv", QedRunner);
    left := g.files;
  }

  // ---------------------------------------------------------------------
  // Two calls on the same objects

  /**
   * A call with a PMI selector that has no label, made after an earlier call
   * has plugged the PMI template into `scoring_config`. The call fails, but
   * only after writing its fields into the shared template, which
   * `scoring_config` still refers to: what the runner is handed next carries
   * the failed call's PMI name, which no successful call asked for.
   */
  method SharedTemplateLeak(g: Globals, selector: string, p: Params, inputName: string, outputName: string,
                            engine: (Value, map<string, string>) -> EngineRun)
    returns (result: Outcome)
    requires g.Valid() && g.component == Some(Pmi)
    requires FamilyOf(selector) == Some(Pmi) && selector !in PmiSelectors
    requires inputName != outputName && inputName !in g.files && outputName !in g.files
    modifies g
    ensures result == ErrorList([PmiLabelsNotFound])
    ensures g.component == Some(Pmi)
    ensures Get(g.ScoringConfigView(), ComponentPath + PmiComponent + [F("name")]) == Some(Str(p.pmiName))
  {
    UnlabelledOnlyPmi(selector, p);
    ghost var before := g.Template(Pmi);
    g.TemplateReady(Pmi);
    Overlay(Pmi, p, before);
    result := g.Predict(selector, p, "", inputName, outputName, engine);
    // The template now holds the failed call's name ...
    var name := PmiComponent + [F("name")];
    assert name == FamilyPaths(Pmi)[0];
    var t := g.Template(Pmi);
    assert Some(t) == ApplyWrites(before, Writes(Pmi, p));
    assert Get(t, name) == Some(Str(p.pmiName));
    // ... and the component slot shows the template.
    PlugComponent(g.scoringConfig, t);
    var view := g.ScoringConfigView();
    assert Get(view, ComponentPath) == Some(t);
    GetAppend(view, ComponentPath, name);
    assert ComponentPath + PmiComponent + [F("name")] == ComponentPath + name;
  }
}
