# Reinvent4Predictor.predict — a Dafny model

This project models how the `Reinvent4Predictor` property predictor scores one
molecule. `predict` takes a SMILES string and the predictor's configured property
name (`selected_property`), then does the following:

- writes the SMILES into a temp file and creates a second, empty temp file for
  the runner's output;
- writes both file names into the module-level `scoring_config`;
- picks one of five property families by the first two characters of the
  property name (alerts, QED, molecular weight, Tanimoto similarity, PMI);
- writes the predictor's parameter fields into that family's module-level
  template, in place;
- works out the output column label;
- plugs the template into `scoring_config["scoring"]["component"]`;
- hands the dict- and list-valued sections of `scoring_config` to the REINVENT4
  scoring runner;
- reads the label's column of the first row of the runner's CSV output;
- removes both temp files, but only when a score was read.

Modules, one per file:

- `Document` (document.dfy): the nested dict/list values of runner_templates.py.
  Keys are `str` or `int`. Reading and assigning through a path of subscripts
  follows Python, including `d[0] = x` adding an int key to a dict. A block of
  assignments to disjoint leaves is proved to set each leaf, change nothing
  else, and add to each dict exactly the keys it assigns.
- `RunnerTemplates` (runner_templates.dfy): `scoring_config` and the five family
  templates as constants, with lemmas about their shape.
- `JsonText` (json_text.dfy): `json.dumps` with default settings and the strict
  `json.loads`, on a list of strings. The lemma `RoundTrip` proves the round trip
  the alerts branch makes is the identity.
- `Dispatch` (dispatch.dfy): the state-free decisions of `predict`:
  - the family a property name picks;
  - the column label, using the " (raw)" rule and the PMI label table;
  - each branch's block of assignments, as paths and values;
  - what those assignments do to a template.
- `Assembly` (assembly.dfy): the assignments into `scoring_config` and
  `extract_sections`.
- `Results` (results.dfy): reading the first output row, and the error values
  `predict` returns instead of raising.
- `Predictor` (predictor.dfy): the class `Globals`, which holds the shared
  module-level objects and the temp files on disk. `Globals.Predict` is
  `predict` itself, split into methods along its steps.
  - `scoring_config["scoring"]["component"]` is an alias of the family template,
    not a copy. The model keeps which template the slot refers to
    (`component`), so a later assignment to that template shows through
    `ScoringConfigView`.
  - `SharedTemplateLeak` proves what this aliasing allows across two calls.

The model keeps four behaviours of the code as they are written:
- `predict` overwrites the module-level templates in place and never copies
  them, so they stay shared between calls.
- It removes the temp files only after a score is read.
- It returns its errors as one-element lists of strings.
- An output file with a header and no data row gives
  `['Error: CSV file error']`.

## Constants

The published data is held in constants. They are not rows of the table below,
which lists functions, methods and lemmas; the lemmas there state their shape.

- `RunnerTemplates.ScoringConfig` is `scoring_config` (runner_templates.py:1-25).
- `RunnerTemplates.CustomAlertsConfig` is `custom_alerts_config`
  (runner_templates.py:27-38).
- `RunnerTemplates.QedConfig` is `qed_config` (runner_templates.py:40-49).
- `RunnerTemplates.MolecularWeightConfig` is `molecular_weight_config`
  (runner_templates.py:51-68).
- `RunnerTemplates.TanimotoConfig` is `tanimoto_config`
  (runner_templates.py:70-85).
- `RunnerTemplates.PmiConfig` is `pmi_config` (runner_templates.py:87-105).
- `Dispatch.DefaultParams` holds the parameter field defaults (app.py:75-104).
  `Predictor.QedEndToEnd` uses it.
- `Dispatch.AvailableProperties` is `available_properties` (app.py:71).
  `Dispatch.AvailableResolve` states that every name in it resolves.

## Model

| member | source | states |
|---|---|---|
| Dispatch.FamilyOf | app.py:175-226 | A family is picked exactly when the property name has at least two characters and its first two are that family's code ("al", "qe", "mw", "ta", "pm"); no family when the first two characters match no code |
| Dispatch.Resolve | app.py:175-226 | How far `predict` gets before the runner: no family, a PMI family with no label, or a family and a label. FamilyOf's contract, UnlabelledOnlyPmi and AvailableResolve characterise each case |
| Dispatch.Label | app.py:176-224 | The label each branch leaves in `csv_data_column_label`. AlertsLabel, NamedLabel and UnlabelledOnlyPmi state it family by family |
| Dispatch.RawLabel | app.py:159-161 | `get_csv_data_column_label`. RawSuffixRule and RawVariant prove it appends " (raw)" exactly when the property name ends in "_raw" |
| Dispatch.PmiLabel | app.py:214-224 | The PMI branch's inner match. PmiLabelDefined and PmiLabelRule prove it is defined on exactly the four PMI names, with the four labels |
| Dispatch.FamilyPaths | app.py:177-213 | The left-hand sides of each branch's assignments. PathsDisjoint proves they do not nest, and the Ready and BlockKeys lemmas say which dicts they assign into and which keys they add |
| Dispatch.FamilyValues | app.py:177-213 | The right-hand sides, one per path by its contract. Overlay proves each path holds its value afterwards |
| Dispatch.Writes | app.py:177-213 | A branch's block of assignments. Overlay and OverlayKeys prove what it does to a template |
| Dispatch.PrefixDispatch | app.py:175 | Two property names with the same first two characters pick the same family |
| Dispatch.CodeDispatch | app.py:175-207 | A family's code followed by any text picks that family |
| Dispatch.ShortSelector | app.py:175-226 | A property name shorter than two characters picks no family |
| Dispatch.BogusExample | app.py:225-226 | "bogus" resolves to the undefined-property case |
| Dispatch.RawSuffixRule | app.py:159-161 | The label is the name plus " (raw)" when the property name ends in "_raw", and the name unchanged otherwise |
| Dispatch.RawVariant | app.py:159-161 | A property name without the suffix gives the plain name, and the same name with "_raw" appended gives the raw label |
| Dispatch.NamedLabel | app.py:182-206 | For QED, molecular weight and Tanimoto a label is always found: the family's configured name, under the raw-suffix rule in both directions |
| Dispatch.QedExamples | app.py:182-186 | "qed" gives the QED name as label and "qed_raw" gives that name plus " (raw)" |
| Dispatch.AlertsLabel | app.py:176-178 | For alerts the label is `alerts_name`, with no raw suffix, even for a name ending in "_raw" |
| Dispatch.AlertsLabelStored | app.py:176-181 | After the alerts branch, `endpoint[0]["name"]` holds the label the result is later read under, and `params["smarts"]` holds the configured patterns |
| Dispatch.PmiLabelDefined | app.py:214-224 | Among PMI names, a label exists if and only if the name is one of "pmi", "pmi2", "pmi_raw" and "pmi2_raw" |
| Dispatch.PmiLabelRule | app.py:214-222 | Each of the four PMI labels is "pmi" under the raw-suffix rule, with ".2" appended for the second endpoint |
| Dispatch.UnlabelledOnlyPmi | app.py:207-224 | A family is picked but no label is found exactly when the name starts with "pm" and is not one of the four PMI names |
| Dispatch.PmiExamples | app.py:207-224 | "pmi3" reaches PMI and finds no label; "pmi2_raw" gives "pmi (raw).2" |
| Dispatch.AvailableResolve | app.py:71 | Every advertised property name resolves to a family and a label |
| Dispatch.AvailableHead | app.py:71 | The first four advertised names resolve to a label |
| Dispatch.AvailableMiddle | app.py:71 | Advertised names five to eight resolve to a label |
| Dispatch.AvailableTail | app.py:71 | The last four advertised names resolve to a label |
| Dispatch.PathsDisjoint | app.py:177-213 | Within a branch, no assigned path leads to or lies under another |
| Dispatch.AlertsReady | runner_templates.py:27-38 | Every dict the alerts branch assigns into exists in the published alerts template |
| Dispatch.QedReady | runner_templates.py:40-49 | Every dict the QED branch assigns into exists in the published QED template |
| Dispatch.MolecularWeightReady | runner_templates.py:51-68 | Every dict the molecular-weight branch assigns into exists in the published template |
| Dispatch.TanimotoReady | runner_templates.py:70-85 | Every dict the Tanimoto branch assigns into exists in the published template |
| Dispatch.PmiDicts | runner_templates.py:87-105 | The PMI component and both its endpoints are dicts |
| Dispatch.PmiReady | runner_templates.py:87-105 | Every dict the PMI branch assigns into exists in the published PMI template |
| Dispatch.TemplatesReady | runner_templates.py:27-105 | Every published template has the dicts its branch assigns into |
| Dispatch.AssignBlock | app.py:177-213 | A block of assignments to disjoint paths, each into an existing dict, succeeds; each path then holds its value, and the block could run again |
| Dispatch.Overlay | app.py:177-213 | A branch's block succeeds on a ready template; each assigned leaf then holds its parameter value, every other path reads as before, and the template stays ready |
| Dispatch.OverlayKeys | app.py:177-213 | A dict the block does not replace gains exactly the keys assigned directly in it |
| Dispatch.QedNameQuirk | app.py:184 | The QED branch stores the name under int key 0, and the endpoint's "name" entry keeps whatever it held |
| Dispatch.QedKeys | app.py:183-185 | The QED endpoint gains int key 0 and "weight" and no other key |
| Dispatch.QedNameNotStored | app.py:182-186 | On the published QED template the stored name stays "QED" and the endpoint keys become "name", "weight" and 0, while the label uses the configured name |
| Dispatch.MwBlockKeys | app.py:189-196 | The molecular-weight branch assigns exactly the six transform keys in the transform |
| Dispatch.MwTransformBlockKeys | app.py:191-196 | The six transform assignments add type, high, low, coef_div, coef_si and coef_se |
| Dispatch.MwCoefficientKeys | app.py:194-196 | The last three assignments add the three sigmoid coefficients |
| Dispatch.MwTransformShape | app.py:187-196 | The molecular-weight branch adds to the transform only its six keys |
| Dispatch.TanimotoBlockKeys | app.py:200-205 | The Tanimoto branch assigns exactly smiles, radius, use_counts and use_features in its params dict |
| Dispatch.TanimotoFlagKeys | app.py:204-205 | The last two assignments add the two fingerprint flags |
| Dispatch.TanimotoParamsShape | app.py:198-205 | The Tanimoto branch adds to the params dict only its four keys |
| Dispatch.PmiBlockKeys | app.py:209-213 | The PMI branch assigns only "property" in each endpoint's params dict |
| Dispatch.PmiParamsShape | app.py:207-213 | The PMI branch adds to each endpoint's params dict only "property" |
| Dispatch.OverlaysKeepShape | app.py:187-213 | On the published templates, the molecular-weight, Tanimoto and PMI branches only replace existing leaves: the dicts they assign into keep their keys |
| Document.Get | app.py:177-213 | Reading a chain of subscripts. PutGet and PutOther relate it to Put |
| Document.Put | app.py:177-213 | One nested subscript assignment. PutGet proves the path reads back the value, PutOther that disjoint paths are unchanged |
| Document.ApplyWrites | app.py:177-213 | A block of assignments run in order. WritesApply, WritesFrame and WritesKeys prove what it sets, keeps and adds |
| Document.PutGet | app.py:177-213 | After a subscript assignment succeeds, reading the same path gives the assigned value |
| Document.PutOther | app.py:177-213 | A subscript assignment leaves every path that neither leads to nor lies under it unchanged |
| Document.WritesApply | app.py:177-213 | A block of disjoint assignments into existing dicts succeeds, and each path then holds its value |
| Document.WritesFrame | app.py:177-213 | A block of disjoint assignments leaves every path away from all of them unchanged |
| Document.WritesKeys | app.py:177-213 | A block of assignments adds to a dict exactly the keys it assigns directly in it |
| JsonText.Dumps | app.py:179 | `json.dumps` on a list of strings. RoundTrip proves Loads undoes it |
| JsonText.Loads | app.py:180 | The strict `json.loads` on an array of strings. RoundTrip proves it undoes Dumps |
| JsonText.RoundTrip | app.py:179-181 | `json.loads(json.dumps(xs)) == xs` for every list of strings |
| JsonText.ElementsRoundTrip | app.py:179-180 | The quoted, comma-joined elements followed by "]" parse back to the list and leave what follows |
| JsonText.BodyRoundTrip | app.py:179-180 | An escaped string followed by a closing quote decodes to the original string |
| JsonText.UnescapeEscapeChar | app.py:179-180 | Each escape the ASCII encoder writes, surrogate pairs included, decodes to the character it came from |
| JsonText.Hex4RoundTrip | app.py:179-180 | The four hex digits of a `\u` escape read back as the code unit |
| RunnerTemplates.ScoringConfigSections | runner_templates.py:1-25 | `scoring_config` has exactly two dict- or list-valued entries: "parameters" and "scoring" |
| RunnerTemplates.ScoringConfigSlots | runner_templates.py:7-18 | The component list starts empty, and the two file entries exist with their published values |
| RunnerTemplates.TemplatesHeaded | runner_templates.py:27-105 | Each template is a one-element list whose dict has the single key naming its component |
| RunnerTemplates.SimpleEndpointCounts | runner_templates.py:27-49 | The alerts and QED templates have one endpoint each |
| RunnerTemplates.WeightedEndpointCounts | runner_templates.py:51-85 | The molecular-weight and Tanimoto templates have one endpoint each |
| RunnerTemplates.PmiEndpointCount | runner_templates.py:87-105 | The PMI template has two endpoints |
| RunnerTemplates.QedEndpointKeys | runner_templates.py:40-49 | The QED endpoint holds exactly "name" (which is "QED") and "weight" |
| RunnerTemplates.AlertsParamsKeys | runner_templates.py:32-34 | The alerts params dict holds only "smarts" |
| RunnerTemplates.MwTransformKeys | runner_templates.py:57-64 | The transform holds exactly type, high, low, coef_div, coef_si and coef_se |
| RunnerTemplates.TanimotoParamsKeys | runner_templates.py:76-81 | The Tanimoto params dict holds exactly smiles, radius, use_counts and use_features |
| RunnerTemplates.PmiParamsKeys | runner_templates.py:91-102 | Each PMI endpoint's params dict holds only "property" |
| Assembly.PublishedShape | runner_templates.py:1-25 | The published `scoring_config` has the shape every later assignment keeps |
| Assembly.FileWrites | app.py:172-173 | The two file-name assignments. SetFileNames, FileNamesFrame and FileNamesKeepShape state their effect |
| Assembly.SetFileNames | app.py:172-173 | Both file-name assignments succeed, and afterwards `smiles_file` and `output_csv` hold the two names |
| Assembly.FileNamesFrame | app.py:172-173 | The two file-name assignments change no other entry of `scoring_config` |
| Assembly.FileNamesKeepShape | app.py:172-173 | The two file-name assignments keep the shape of `scoring_config` |
| Assembly.PlugComponent | app.py:229 | The component assignment succeeds, the slot holds the template, no other entry changes, and the shape is kept |
| Assembly.ExtractSections | app.py:133-139 | `extract_sections`. ExtractSubmap, ExtractKeepsSections and ExtractIdempotent state what it keeps |
| Assembly.ExtractSubmap | app.py:139 | `extract_sections` returns a sub-map of its input holding only dict or list values, each unchanged |
| Assembly.ExtractKeepsSections | app.py:139 | No dict- or list-valued entry is dropped |
| Assembly.ExtractIdempotent | app.py:139 | Extracting twice gives the same result as extracting once |
| Assembly.RunnerSections | app.py:229-230 | On a configuration of the published shape, the extracted sections are exactly "parameters" and "scoring", with their current values |
| Results.ReadResult | app.py:239-245 | Reading the label's column of the first row. ReadOutcomes and FirstRowOnly state its three outcomes |
| Results.Finish | app.py:231-245 | The outcome after the runner: a runner exception passes on, otherwise the output is read as by ReadResult |
| Results.ReadOutcomes | app.py:239-245 | A score is read exactly when a non-empty first row has the label's column, and it is that row's field there. Otherwise the result is the CSV error when there is no non-empty first row, or the lookup failure when the column is missing |
| Results.FirstRowOnly | app.py:239-243 | Rows after the first never change the result |
| Results.ReadExamples | app.py:239-245 | For the table with header `QED,MW` and one row `0.82,312.4`: "QED" gives 0.82, "MW" gives 312.4, and an unknown column gives the lookup failure; an empty table gives the CSV error |
| Predictor.Globals.constructor | runner_templates.py:1-105 | The shared objects start as published, nothing is plugged into the component slot, and there are no temp files |
| Dispatch.InitialTemplate | runner_templates.py:27-105 | The template each family's branch binds to `scoring_component` at the start; TemplatesReady and the RunnerTemplates shape lemmas state what each holds |
| Predictor.Globals.Template | app.py:177-208 | The module-level template `scoring_component` names in each branch (app.py:177, 183, 188, 199, 208); WriteTemplate and OverlayFamily state how it is overwritten |
| Predictor.Globals.ScoringConfigView | app.py:229 | `scoring_config` as the runner sees it: the component slot shows the current state of the template it refers to, not a copy; RunnerInputShape and SharedTemplateLeak state what follows |
| Predictor.Globals.RunnerInput | app.py:230 | `extract_sections(scoring_config)`; RunnerInputShape states that it is exactly "parameters" and "scoring", with the file names and the plugged-in template |
| Predictor.Globals.RunnerInputShape | app.py:229-230 | With a template plugged in, the runner gets exactly "parameters" and "scoring", with the file names as assigned and the current template as the component |
| Predictor.Globals.WriteTemplate | app.py:177 | An assignment through `scoring_component` replaces that family's template and nothing else |
| Predictor.Globals.CreateFiles | app.py:163-173 | Two temp files are added, the input file holding the sample and the output file empty; both names are assigned into "parameters"; the templates are unchanged |
| Predictor.Globals.OverlayFamily | app.py:175-213 | The family's template becomes its branch's block applied to its old value, with the SMARTS list passed through the JSON round trip; other templates and `scoring_config` are unchanged |
| Predictor.Globals.PlugIn | app.py:229 | The component slot refers to the family's template, and the runner input is "parameters" and "scoring" with that template as component |
| Predictor.Globals.Launch | app.py:229-249 | The runner is called on the extracted configuration and the files on disk; the result is read from its output; both temp files are removed exactly when a score comes back, and otherwise the output file holds what the runner wrote into it |
| Predictor.Globals.RunFamily | app.py:175-249 | After the branch's assignments, an unknown PMI name returns the PMI labels error with the component slot and the files untouched; otherwise the runner is launched with the resolved label, with Launch's outcome and files |
| Predictor.Globals.Branch | app.py:175-249 | An unknown family returns the undefined-property error and changes no template and no file; otherwise the family's branch runs |
| Predictor.Globals.Predict | app.py:109-249 | Predict overall: file names always assigned; the chosen template overwritten even when no PMI label is found; each of the two early errors and the runner outcome; both temp files removed after a successful read only; after either early error the output file is still empty, and after the runner it holds what the runner wrote |
| Predictor.QedEndToEnd | app.py:109-249 | From the published objects, with the default parameter fields, "qed" and a runner whose output reads `QED` then `0.91` give the score 0.91 and leave no temp file |
| Predictor.BogusEndToEnd | app.py:163-226 | From the published objects, "bogus" gives the undefined-property error and leaves both temp files, the input file holding the sample and the output file empty |
| Predictor.SharedTemplateLeak | app.py:207-229 | A failing PMI call made after a PMI call that reached the runner returns the PMI labels error, but its name is already visible through `scoring_config`'s component slot |

## Left out

- The REINVENT4 runner (`runmodes.run_scoring`, app.py:231-237) is a foreign
  call. It is a function parameter from the configuration it is handed and the
  files on disk to what it leaves in the output file, together with either that
  file's rows or a crash. Being a function, the runner is assumed to leave the
  objects it is handed unchanged: `scoring_config["parameters"]`,
  `scoring_config["scoring"]` and, through the component slot, the template
  itself. It is also assumed to leave every file except the output file
  unchanged. The state `Predict` promises after the runner relies on this.
- Its `device`, `tb_logdir`, responder and `write_config` arguments are not
  modelled.
- CSV tokenising by `csv.DictReader` is not modelled. The runner step supplies
  the output file's rows beside its text, each row a map from column name to
  field; nothing ties the rows to the text. Short rows (which `DictReader`
  fills with `None`) and long rows (extra fields under the key `None`) are not
  represented.
- Strings are sequences of Unicode scalar values. A Python `str` can also hold
  lone surrogates, and `json.loads` accepts an escape such as `"\ud800"`;
  `JsonText.Loads` rejects it, and no property name, label or SMARTS pattern of
  the model can hold such a character.
- Real file I/O is not modelled: `tempfile.NamedTemporaryFile`, `open`/`write`,
  `seek` and `os.remove`. The files on disk are a map from name to content.
- The operating system chooses the temp-file names. Here they are parameters,
  and their freshness and distinctness are a precondition of `Predict`.
- The error `nuke_file` prints when `os.remove` fails is not modelled.
- `json.dumps`/`json.loads` are modelled only on a list of strings, which is the
  type `alerts_smarts` takes in practice. The `list` field could hold other JSON
  values.
- Negative list indices, dict insertion order and JSON number text are not
  modelled: no path in `predict` needs them.
- Weights and transform coefficients are kept as reals and never computed on;
  floating point is not modelled.
- Pydantic field validation and coercion are not modelled. `mw_weight` is
  declared `str` with a float default, so it is carried as whatever value it
  holds.
- `scoring_type` and `scoring_parallel` are declared but never read by
  `predict`.
- The following are outside the modelled core:
  - server start-up and registration;
  - `setup_responder` (never called);
  - the `get_predictor` and `setup` stubs;
  - the `ClassificationModel` stub;
  - logging and the module-level constants.
- The rdkit and torch imports are outside the modelled core.
- Concurrent requests are not modelled. Calls are sequential on one `Globals`
  object.
- Predictor.Globals.OverlayFamily: `tanimoto_smiles` and `alerts_smarts` are
  stored by value. In Python, `tanimoto_smiles` is the field's own list object,
  so later mutation of that list would also show in the template; the model does
  not capture this aliasing.
- Predictor.SharedTemplateLeak: starts from a state where the PMI template is
  already plugged into `scoring_config`, rather than also modelling the earlier
  successful call that plugged it in.
- Assembly.ScoringShape: states only that "parameters" and "scoring" are dicts
  and every other top-level entry is a scalar or None, not the full published
  value. The whole value is stated by `Predictor.Globals.CreateFiles` through
  `ApplyWrites`.
