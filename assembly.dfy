/**
 * How `predict` puts the job configuration together around the chosen
 * template: the two temp-file names go into `scoring_config["parameters"]`,
 * the template becomes `scoring_config["scoring"]["component"]`, and
 * `extract_sections` keeps only the dict- and list-valued entries for the
 * runner.
 */
module Assembly {
  import opened Wrappers
  import opened Document
  import opened RunnerTemplates

  /** `scoring_config["parameters"]["smiles_file"] = ...` then `["output_csv"] = ...` */
  function FileWrites(inputName: string, outputName: string): seq<Write>
  {
    [Write(SmilesFilePath, Str(inputName)), Write(OutputCsvPath, Str(outputName))]
  }

  /**
   * What `scoring_config` keeps under every assignment `predict` makes to it:
   * a dict whose "parameters" and "scoring" entries are dicts and whose every
   * other entry is a scalar or None.
   */
  predicate ScoringShape(v: Value)
  {
    && v.Obj?
    && IsDictAt(v, ParametersPath)
    && IsDictAt(v, ScoringPath)
    && forall k | k in v.fields && k != F("parameters") && k != F("scoring") :: !IsSection(v.fields[k])
  }

  lemma PublishedShape()
    ensures ScoringShape(ScoringConfig)
  {
    ScoringConfigSections();
  }

  /** A path that neither leads to nor lies under one of the two file entries. */
  predicate AwayFromFiles(q: Path)
  {
    Disjoint(q, SmilesFilePath) && Disjoint(q, OutputCsvPath)
  }

  /**
   * The two assignments of the file names succeed and leave the names where
   * the runner reads them.
   */
  lemma SetFileNames(v: Value, inputName: string, outputName: string)
    requires ScoringShape(v)
    ensures ApplyWrites(v, FileWrites(inputName, outputName)).Some?
    ensures Get(ApplyWrites(v, FileWrites(inputName, outputName)).value, SmilesFilePath) == Some(Str(inputName))
    ensures Get(ApplyWrites(v, FileWrites(inputName, outputName)).value, OutputCsvPath) == Some(Str(outputName))
  {
    var ws := FileWrites(inputName, outputName);
    DifferAt(SmilesFilePath, OutputCsvPath, 1);
    assert SmilesFilePath[..1] == ParametersPath && OutputCsvPath[..1] == ParametersPath;
    WritesApply(v, ws);
  }

  /** The two assignments of the file names change nothing away from the two entries. */
  lemma FileNamesFrame(v: Value, inputName: string, outputName: string)
    requires ScoringShape(v)
    ensures ApplyWrites(v, FileWrites(inputName, outputName)).Some?
    ensures forall q | AwayFromFiles(q) :: Get(ApplyWrites(v, FileWrites(inputName, outputName)).value, q) == Get(v, q)
  {
    var ws := FileWrites(inputName, outputName);
    SetFileNames(v, inputName, outputName);
    DifferAt(SmilesFilePath, OutputCsvPath, 1);
    assert SmilesFilePath[..1] == ParametersPath && OutputCsvPath[..1] == ParametersPath;
    forall q | AwayFromFiles(q)
      ensures Get(ApplyWrites(v, ws).value, q) == Get(v, q)
    {
      WritesFrame(v, ws, q);
    }
  }

  /** The two assignments of the file names keep the shape of `scoring_config`. */
  lemma FileNamesKeepShape(v: Value, inputName: string, outputName: string)
    requires ScoringShape(v)
    ensures ApplyWrites(v, FileWrites(inputName, outputName)).Some?
    ensures ScoringShape(ApplyWrites(v, FileWrites(inputName, outputName)).value)
  {
    var ws := FileWrites(inputName, outputName);
    FileNamesFrame(v, inputName, outputName);
    var r := ApplyWrites(v, ws).value;
    // The parameters dict is still a dict: it is where the names were put.
    assert SmilesFilePath[..1] == ParametersPath;
    assert ParentIsDict(r, SmilesFilePath) by {
      SetFileNames(v, inputName, outputName);
      GetAppend(r, ParametersPath, [F("smiles_file")]);
    }
    DifferAt(ScoringPath, SmilesFilePath, 0);
    DifferAt(ScoringPath, OutputCsvPath, 0);
    assert AwayFromFiles(ScoringPath);
    assert r.Obj?;
    forall k | k in r.fields && k != F("parameters") && k != F("scoring")
      ensures !IsSection(r.fields[k])
    {
      DifferAt([k], SmilesFilePath, 0);
      DifferAt([k], OutputCsvPath, 0);
      assert AwayFromFiles([k]);
      GetField(r, k);
      GetField(v, k);
    }
  }

  /** A path that neither leads to nor lies under the component slot. */
  predicate AwayFromComponent(q: Path)
  {
    Disjoint(q, ComponentPath)
  }

  /**
   * `scoring_config["scoring"]["component"] = scoring_component` succeeds,
   * leaves the template in the slot, changes nothing else and keeps the shape.
   */
  lemma PlugComponent(v: Value, c: Value)
    requires ScoringShape(v)
    ensures Put(v, ComponentPath, c).Some?
    ensures Get(Put(v, ComponentPath, c).value, ComponentPath) == Some(c)
    ensures forall q | AwayFromComponent(q) :: Get(Put(v, ComponentPath, c).value, q) == Get(v, q)
    ensures ScoringShape(Put(v, ComponentPath, c).value)
  {
    assert ComponentPath[..1] == ScoringPath;
    PutIntoDict(v, ComponentPath, c);
    var r := Put(v, ComponentPath, c).value;
    PutGet(v, ComponentPath, c);
    forall q | AwayFromComponent(q)
      ensures Get(r, q) == Get(v, q)
    {
      PutOther(v, ComponentPath, c, q);
    }
    PutKeys(v, ComponentPath, c, []);
    PutKeys(v, ComponentPath, c, ScoringPath);
    DifferAt(ParametersPath, ComponentPath, 0);
    assert Get(r, ParametersPath) == Get(v, ParametersPath);
    forall k | k in r.fields && k != F("parameters") && k != F("scoring")
      ensures !IsSection(r.fields[k])
    {
      DifferAt([k], ComponentPath, 0);
      GetField(r, k);
      GetField(v, k);
    }
  }

  /** `extract_sections(config)`: the entries whose value is a dict or a list. */
  function ExtractSections(config: map<Key, Value>): map<Key, Value>
  {
    map k | k in config && IsSection(config[k]) :: config[k]
  }

  /** The result is a sub-map of the input, holding sections only, each with its value unchanged. */
  lemma ExtractSubmap(config: map<Key, Value>)
    ensures ExtractSections(config).Keys <= config.Keys
    ensures forall k | k in ExtractSections(config) :: ExtractSections(config)[k] == config[k] && IsSection(config[k])
  {
  }

  /** No section is dropped. */
  lemma ExtractKeepsSections(config: map<Key, Value>)
    ensures forall k | k in config && IsSection(config[k]) :: k in ExtractSections(config)
  {
  }

  /** Extracting twice is extracting once. */
  lemma ExtractIdempotent(config: map<Key, Value>)
    ensures ExtractSections(ExtractSections(config)) == ExtractSections(config)
  {
  }

  /**
   * Filtering a configuration of the published shape keeps exactly "parameters"
   * and "scoring", with their current values: every other entry is a scalar
   * or None.
   */
  lemma RunnerSections(v: Value)
    requires ScoringShape(v)
    ensures ExtractSections(v.fields).Keys == {F("parameters"), F("scoring")}
    ensures ExtractSections(v.fields)[F("parameters")] == v.fields[F("parameters")]
    ensures ExtractSections(v.fields)[F("scoring")] == v.fields[F("scoring")]
  {
    var m := ExtractSections(v.fields);
    GetField(v, F("parameters"));
    GetField(v, F("scoring"));
    forall k | k in v.fields
      ensures k in m <==> k == F("parameters") || k == F("scoring")
    {
    }
  }
}
