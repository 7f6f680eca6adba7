# aiida-catmap, modelled in Dafny

aiida-catmap is a plugin that lets a workflow engine (AiiDA) run the
CatMAP micro-kinetic solver. This model covers its two edges:

- **The calculation job** (`CatMAPCalculation`). `define` declares the
  defaults, the output ports and the exit codes. `prepare_for_submission`
  writes the `.mkm` configuration file and a five-line Python driver
  script. It also returns the copy list (the energies table to stage) and
  the retrieve list (the log and the pickled results to fetch back).
- **The parser** (`CatMAPParser.parse`). It checks that the log and the
  pickle were retrieved. It then emits the log and reads the pickle. Last,
  it emits the coverage, rate and production-rate maps, with every number
  converted to a float.

Modules:

- `Wrappers` (`wrappers.dfy`): `Option`.
- `ConfigText` (`config_text.dfy`): the line format `name = rhs \n`,
  single quoting of string settings, and `QuotedValue`, which reads a quoted
  value back. It also defines `Mentions`, which asks whether a file assigns a
  variable, and proves that this holds exactly when a setting of that name
  was written.
- `CatmapCalculation` (`calculation.dfy`):
  - the `define` constants and exit codes;
  - `Inputs` (ports as submitted), `ApplyDefaults`, and `Parameters`
    (ports as the job sees them);
  - the configuration file as a function of the parameters (`MkmFile`);
  - the writer methods, which append line by line as the job does, each
    proved equal to that function;
  - the layout lemmas.
- `CatmapParser` (`parser.dfy`):
  - the subset test and the map normalisation as functions;
  - the whole parse as one value (`ParseRun`);
  - the class `CatMAPParser`, whose `Parse` method attaches outputs step by
    step with early returns and is proved to agree with `ParseRun`;
  - the lemmas about outcomes and emissions.

Three behaviours of the code shape the model:

- The job reads some optional ports without checking them first. A missing
  `scaling_constraint_dict`, or in an electrocatalysis run a missing
  `electrochemical_thermo_mode` (or, with the generalized linear scaler, a
  missing `voltage` or `pH`), makes the job fail part-way through writing.
  The model states the demand as the precondition `Ready`.
- The driver script has five lines.
- A pickle without `rate_map` or `production_rate_map` raises a `KeyError`
  that nothing catches (`UncaughtKeyError`).

The old copy of the parser, `aiida_catmap/parsers.py`, has the same logic
as `aiida_catmap/parsers/catmap.py` and is covered by the same members.
The table cites each member once. For the old copy the lines are:

- `CatMAPParser.Parse`: :26-74.
- `MissingFiles`: :33-43.
- The log emission in `NoCoverageMap`: :45-49.
- The missing coverage map in `NoCoverageMap`: :54-57.
- `UncaughtMissingMap`: :62-63.
- `Normalise`: :55 and :62-63.
- `Success`: :72-74.

## Model

| member | source | states |
|---|---|---|
| CatmapCalculation.ApplyDefaults | aiida_catmap/calculations/catmap.py:35-73 | each unset port with a default takes it (electrocatal true, scaler GeneralizedLinearScaler, numerical_solver coverages, mkm_filename aiida.mkm, data_file aiida.pickle, beta 0.5, reference scale SHE, zero potentials and Upzc, sigma_input ['CH', 0], mkm_job.py, aiida.out); a given value always wins over the default |
| CatmapCalculation.ApplyDefaultsPassThrough | aiida_catmap/calculations/catmap.py:38-62 | every port without a default (energies, the reaction, numeric and thermodynamics-mode ports, scaling constraints, ideal_gas_params, voltage, pH) passes through unchanged |
| CatmapCalculation.WriteMkmFile | aiida_catmap/calculations/catmap.py:95-135 | the lines written, in writing order, are exactly the configuration file `MkmFile` |
| CatmapCalculation.WriteReactionConditions | aiida_catmap/calculations/catmap.py:98-111 | appends exactly the thirteen reaction-condition lines |
| CatmapCalculation.WriteElectrochemistry | aiida_catmap/calculations/catmap.py:114-128 | appends nothing in a thermal run; otherwise the scaler's lines, beta, then one line per thermodynamics mode, following the loop by its invariant |
| CatmapCalculation.WriteScalerConditions | aiida_catmap/calculations/catmap.py:115-124 | appends voltage and pH for the generalized linear scaler, and the five reference and double-layer lines for any other scaler |
| CatmapCalculation.WriteNumerics | aiida_catmap/calculations/catmap.py:131-135 | appends exactly the five numerical lines |
| CatmapCalculation.WriteDriverScript | aiida_catmap/calculations/catmap.py:139-144 | five lines; the second assigns `mkm_file` the quoted configuration-file name, which reads back exactly; the other four are fixed |
| CatmapCalculation.PrepareForSubmission | aiida_catmap/calculations/catmap.py:85-160 | writes the configuration file under mkm_filename and the driver under input_filename; the driver is the four fixed lines with the `mkm_file` line second, naming the configuration file; the working folder holds exactly these two names, the driver under its own, and it still holds the configuration file exactly when the two names differ; the copy list stages only the energies file under its own name, which is the configuration file's `input_file`; the retrieve list is [output_filename, data_file], and that data_file is the configuration file's `data_file` |
| CatmapCalculation.ModeSettingsShape | aiida_catmap/calculations/catmap.py:127-128 | one `electrochemical_thermo_mode` setting per list element, quoted, in list order, duplicates kept |
| CatmapCalculation.HeaderNamesOf | aiida_catmap/calculations/catmap.py:98-111 | the reaction conditions assign the thirteen fixed variables in the fixed order |
| CatmapCalculation.FooterNamesOf | aiida_catmap/calculations/catmap.py:131-135 | the numerical block assigns the five fixed variables in the fixed order |
| CatmapCalculation.ElectroNamesOf | aiida_catmap/calculations/catmap.py:114-128 | the electrochemistry block assigns the scaler's variables, then beta, then one thermodynamics-mode line per element |
| CatmapCalculation.LayoutNames | aiida_catmap/calculations/catmap.py:98-135 | the exact sequence of assigned variables for each of the three layouts (thermal, generalized linear scaler, other scaler) |
| CatmapCalculation.LineCountFormula | aiida_catmap/calculations/catmap.py:98-135 | the file has 18 lines, plus 2 or 5, plus 1, plus one per thermodynamics mode in an electrocatalysis run |
| CatmapCalculation.ElectroNamesAreNotFixed | aiida_catmap/calculations/catmap.py:98-135 | no electrochemistry variable is one of the eighteen variables every file assigns |
| CatmapCalculation.ScalerNamesDisjoint | aiida_catmap/calculations/catmap.py:115-126 | the two scalers' variables are disjoint from each other and from beta and the thermodynamics mode |
| CatmapCalculation.FixedHeaderAndFooter | aiida_catmap/calculations/catmap.py:98-135 | every file starts with the thirteen fixed assignments and ends with the five fixed ones, in order; every line ends with a space and a newline |
| CatmapCalculation.ThermalLayout | aiida_catmap/calculations/catmap.py:114-135 | a thermal run has exactly 18 lines and assigns none of voltage, pH, beta, the five other-scaler variables or the thermodynamics mode |
| CatmapCalculation.GlsLayout | aiida_catmap/calculations/catmap.py:114-128 | with the generalized linear scaler the file assigns voltage, pH and beta and none of the other scaler's five variables |
| CatmapCalculation.OtherScalerLayout | aiida_catmap/calculations/catmap.py:119-126 | with any other scaler the file assigns the five reference and double-layer variables and beta |
| CatmapCalculation.OtherScalerOmitsConditions | aiida_catmap/calculations/catmap.py:115-124 | with any other scaler the file assigns neither voltage nor pH, so exactly one branch is taken |
| CatmapCalculation.FixedBlocksAt | aiida_catmap/calculations/catmap.py:98-135 | the first thirteen lines are the reaction conditions and the last five the numerical block |
| CatmapCalculation.ElectroBlockAt | aiida_catmap/calculations/catmap.py:113-128 | the electrochemistry block sits right after the thirteenth line and right before the last five |
| CatmapCalculation.ElectroBlockLines | aiida_catmap/calculations/catmap.py:114-128 | the electrochemistry block is the scaler's two or five lines, then beta, then one quoted thermodynamics-mode line per list element, in list order |
| CatmapCalculation.ScalerLines | aiida_catmap/calculations/catmap.py:115-124 | the scaler's lines one by one: voltage and pH for the generalized linear scaler; otherwise the quoted reference scale, then the extrapolated potential, the voltage drop, the sigma input and Upzc |
| CatmapCalculation.OtherScalerValues | aiida_catmap/calculations/catmap.py:119-124 | with another scaler, file lines 14 to 17 are the extrapolated potential, the voltage drop, the sigma input and Upzc, as rendered (0.0, 0.0, ['CH', 0] and 0.0 by default) |
| CatmapCalculation.ElectroValues | aiida_catmap/calculations/catmap.py:114-128 | the file's line count and the beta, voltage and pH lines at their positions; the quoted reference scale and every thermodynamics mode read back exactly, in list order |
| CatmapCalculation.QuotedSettingValues | aiida_catmap/calculations/catmap.py:98-135 | scaler, data_file, input_file, both thermo modes and numerical_solver are written quoted and read back exactly |
| CatmapCalculation.RenderedSettingValues | aiida_catmap/calculations/catmap.py:98-135 | rxn_expressions, surface_names, descriptor_names, descriptor_ranges, resolution, temperature, species_definitions, scaling_constraint_dict, decimal_precision, tolerance, max_rootfinding_iterations and max_bisections are written unquoted, as rendered, at their fixed positions |
| CatmapCalculation.FileNamesWritten | aiida_catmap/calculations/catmap.py:106-107 | the file's `data_file` and `input_file` read back as the data-file port and the energies file's name |
| CatmapCalculation.ThermalNeedsExplicitFalse | aiida_catmap/calculations/catmap.py:35 | the 18-line layout is written exactly when electrocatal is given as false |
| CatmapCalculation.DefaultLayout | aiida_catmap/calculations/catmap.py:35-126 | with electrocatal and scaler unset, the file assigns voltage and pH, and an unset beta is written as 0.5 |
| ConfigText.Lines | aiida_catmap/calculations/catmap.py:98-135 | one written line per setting |
| ConfigText.LineShape | aiida_catmap/calculations/catmap.py:98-135 | every written line starts with its variable's name and ` = ` and ends with ` \n` |
| ConfigText.OneTextLine | aiida_catmap/calculations/catmap.py:98-135 | every write ends with a newline, and it is exactly one line of text exactly when neither the name nor the value holds a newline |
| ConfigText.QuotedNewlines | aiida_catmap/calculations/catmap.py:106-109 | quoting a string adds no newline and removes none |
| ConfigText.KeyPrefixUnique | aiida_catmap/calculations/catmap.py:98-135 | a line starts with `n = ` exactly when it assigns `n` |
| ConfigText.MentionsIffNamed | aiida_catmap/calculations/catmap.py:98-135 | a file assigns a variable exactly when a setting of that name was written |
| ConfigText.QuotedValue | aiida_catmap/calculations/catmap.py:106-109 | a value read back from a line is one whose quoted assignment is that line |
| ConfigText.QuotedRoundTrip | aiida_catmap/calculations/catmap.py:106-109 | a quoted assignment reads back the value written |
| CatmapParser.Complete | aiida_catmap/parsers/catmap.py:34-37 | the subset test holds exactly when every expected name was retrieved |
| CatmapParser.ConvertAll | aiida_catmap/parsers.py:55 | numbers converted element-wise: same length, same order |
| CatmapParser.Normalise | aiida_catmap/parsers/catmap.py:55-66 | same rows in the same order, each point unchanged, each list of numbers converted element-wise with its length kept |
| CatmapParser.CatMAPParser.constructor | aiida_catmap/parsers/catmap.py:14-31 | a parser for the node's output file name and data file, with no outputs yet |
| CatmapParser.CatMAPParser.Out | aiida_catmap/parsers/catmap.py:47 | attaching an output appends it to the outputs and changes nothing else |
| CatmapParser.CatMAPParser.Parse | aiida_catmap/parsers/catmap.py:23-77 | the outcome and the outputs attached, in order, are those of `ParseRun` |
| CatmapParser.MissingFiles | aiida_catmap/parsers/catmap.py:30-41 | ERROR_MISSING_OUTPUT_FILES exactly when the log or the results file is missing, and then nothing is emitted |
| CatmapParser.ExtraFilesIrrelevant | aiida_catmap/parsers.py:37-40 | retrieving further files changes neither the outcome nor the outputs |
| CatmapParser.NoCoverageMap | aiida_catmap/parsers/catmap.py:43-58 | ERROR_NO_PICKLE_FILE exactly when both files are there and the pickle has no coverage map; only the log has been emitted |
| CatmapParser.UncaughtMissingMap | aiida_catmap/parsers/catmap.py:54-66 | with a coverage map, a missing rate or production-rate map escapes as a KeyError naming the first one missing; only the log has been emitted |
| CatmapParser.Success | aiida_catmap/parsers/catmap.py:63-77 | normal completion exactly when both files and all three maps are there; exactly four outputs then, named like the declared ports in order, the log first and each map normalised |
| CatmapParser.LogFirstMapsLast | aiida_catmap/parsers.py:43-74 | anything emitted starts with the log; something is emitted exactly when the files check passes; a map is emitted exactly on normal completion |
| CatmapParser.RetrieveListSatisfiesParser | aiida_catmap/calculations/catmap.py:158 | when every file of the job's retrieve list arrives, the parse does not fail for missing files |

## Left out

- File and folder I/O: opening, writing and reading files, and the
  `SinglefileData` and `List` nodes. Written files are sequences of lines.
  The working folder the job writes into is a map from names to lines,
  assumed empty beforehand. The retrieved folder is a map from names to
  byte contents.
- Python's textual rendering of numbers, lists and dicts inside the
  f-strings. It is the parameter `render`, so only the line structure and
  the quoting are stated.
- Floating-point values: they are kept as binary64 bit patterns, with no
  arithmetic on them.
- Unpickling the results file and converting solver numbers to floats:
  foreign code, passed in as the parameters `load` and `conv`.
- CatmapParser.ParseRun: `pickle.load` and `float` can raise. The model
  treats both as total, so an error they would raise is not an outcome of
  the model.
- The engine plumbing of `define` and `prepare_for_submission`: port
  types, resources, the parser-name metadata, and the `CodeInfo` fields
  (code uuid, stdin and stdout names, MPI flag). These are engine
  configuration. The defaults, output ports and exit codes are kept.
- CatmapCalculation.PrepareForSubmission: requires `Ready`. The job would
  fail part-way through writing without those ports, and the files it
  leaves behind in that case are not modelled. With `mkm_filename` equal to
  the `input_filename` option, the second write replaces the configuration
  file. The returned folder shows this, but `mkm` is still the file as it
  was written, and what the external program then does is not modelled.
- The `ideal_gas_params` port is carried through but never written; its
  line is commented out in the job.
- Logger calls in the parser.
- CatmapCalculation.LineCountFormula, and every other member that counts,
  indexes or searches lines: a "line" of a written file means one write
  call throughout the model, and `Mentions` looks only at the start of each
  write. Counting, indexing and searching the text lines instead is not
  modelled. The job writes string values raw, so a value holding a
  newline adds text lines, and these can assign further variables
  (a thermodynamics mode `"x' \nvoltage = 3 #"`, say). `OneTextLine` and
  `QuotedNewlines` state when the two views agree: every written value is
  free of newlines.
- AiiDA's `out` also validates an output against the declared port. The
  model records emissions only.
- `aiida_catmap/calculations.py`, an obsolete calculation that writes no
  files, is not part of this model. Neither are the test fixtures, the
  example submission script and the packaging.
