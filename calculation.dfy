/**
 * The CatMAP calculation job: the defaults and exit codes its `define`
 * declares, and `prepare_for_submission`, which writes the `.mkm`
 * configuration file and the driver script and says which files the engine
 * stages and fetches back.
 */
module CatmapCalculation {
  import opened Wrappers
  import opened ConfigText

  // ---------------------------------------------------------------------------
  // Constants declared by `define`
  // ---------------------------------------------------------------------------

  /** `_INPUT_FILE_NAME`, the default name of the configuration file. */
  const InputFileName: string := "aiida.mkm"
  const GeneralizedLinearScaler: string := "GeneralizedLinearScaler"
  const DefaultNumericalSolver: string := "coverages"
  const DefaultDataFile: string := "aiida.pickle"
  /** 0.5 as a binary64 bit pattern. */
  const DefaultBeta: Float64 := 0x3FE0_0000_0000_0000
  const DefaultPotentialReferenceScale: string := "SHE"
  /** 0.0 as a binary64 bit pattern. */
  const FloatZero: Float64 := 0
  const DefaultSigmaInput: seq<Value> := [Str("CH"), Int(0)]
  /** Default `input_filename` option: the driver script. */
  const DefaultInputFilename: string := "mkm_job.py"
  /** Default `output_filename` option: the captured standard output. */
  const DefaultOutputFilename: string := "aiida.out"

  /** The output ports, in the order `define` declares them. */
  const OutputPorts: seq<string> := ["log", "coverage_map", "rate_map", "production_rate_map"]

  datatype ExitCode = ExitCode(status: nat, name: string, message: string)

  const ERROR_MISSING_OUTPUT_FILES: ExitCode :=
    ExitCode(100, "ERROR_MISSING_OUTPUT_FILES", "Calculation did not produce all expected output files.")
  const ERROR_NO_PICKLE_FILE: ExitCode :=
    ExitCode(500, "ERROR_NO_PICKLE_FILE", "No information stored in the pickle file")

  // ---------------------------------------------------------------------------
  // Inputs
  // ---------------------------------------------------------------------------

  /** A stored single file: the energies table. */
  datatype SinglefileData = SinglefileData(uuid: string, filename: string)

  /** A `Dict` node's contents. */
  type DictValue = seq<(string, Value)>

  /**
   * The inputs as a caller submits them: a port that is optional, or has a
   * default, may be left unset.
   */
  datatype Inputs = Inputs(
    electrocatal: Option<bool>,
    energies: SinglefileData,
    scaler: Option<string>,
    rxnExpressions: seq<Value>,
    surfaceNames: seq<Value>,
    descriptorNames: seq<Value>,
    descriptorRanges: seq<Value>,
    resolution: int,
    temperature: Float64,
    speciesDefinitions: DictValue,
    gasThermoMode: string,
    adsorbateThermoMode: string,
    scalingConstraintDict: Option<DictValue>,
    numericalSolver: Option<string>,
    decimalPrecision: int,
    tolerance: Float64,
    maxRootfindingIterations: int,
    maxBisections: int,
    mkmFilename: Option<string>,
    dataFile: Option<string>,
    idealGasParams: Option<DictValue>,
    voltage: Option<Float64>,
    electrochemicalThermoMode: Option<seq<string>>,
    pH: Option<Float64>,
    beta: Option<Float64>,
    potentialReferenceScale: Option<string>,
    extrapolatedPotential: Option<Float64>,
    voltageDiffDrop: Option<Float64>,
    sigmaInput: Option<seq<Value>>,
    upzc: Option<Float64>,
    inputFilename: Option<string>,
    outputFilename: Option<string>)

  /**
   * The inputs as the job sees them once the engine has filled in the
   * defaults; only ports without a default can still be missing.
   */
  datatype Parameters = Parameters(
    electrocatal: bool,
    energies: SinglefileData,
    scaler: string,
    rxnExpressions: seq<Value>,
    surfaceNames: seq<Value>,
    descriptorNames: seq<Value>,
    descriptorRanges: seq<Value>,
    resolution: int,
    temperature: Float64,
    speciesDefinitions: DictValue,
    gasThermoMode: string,
    adsorbateThermoMode: string,
    scalingConstraintDict: Option<DictValue>,
    numericalSolver: string,
    decimalPrecision: int,
    tolerance: Float64,
    maxRootfindingIterations: int,
    maxBisections: int,
    mkmFilename: string,
    dataFile: string,
    idealGasParams: Option<DictValue>,
    voltage: Option<Float64>,
    electrochemicalThermoMode: Option<seq<string>>,
    pH: Option<Float64>,
    beta: Float64,
    potentialReferenceScale: string,
    extrapolatedPotential: Float64,
    voltageDiffDrop: Float64,
    sigmaInput: seq<Value>,
    upzc: Float64,
    inputFilename: string,
    outputFilename: string)

  /** The engine fills every unset port that has a default with that default. */
  function ApplyDefaults(i: Inputs): (p: Parameters)
    ensures p.electrocatal <==> i.electrocatal != Some(false)
    ensures i.scaler == None ==> p.scaler == GeneralizedLinearScaler
    ensures i.numericalSolver == None ==> p.numericalSolver == DefaultNumericalSolver
    ensures i.mkmFilename == None ==> p.mkmFilename == InputFileName
    ensures i.dataFile == None ==> p.dataFile == DefaultDataFile
    ensures i.beta == None ==> p.beta == DefaultBeta
    ensures i.potentialReferenceScale == None ==> p.potentialReferenceScale == DefaultPotentialReferenceScale
    ensures i.extrapolatedPotential == None ==> p.extrapolatedPotential == FloatZero
    ensures i.voltageDiffDrop == None ==> p.voltageDiffDrop == FloatZero
    ensures i.sigmaInput == None ==> p.sigmaInput == DefaultSigmaInput
    ensures i.upzc == None ==> p.upzc == FloatZero
    ensures i.inputFilename == None ==> p.inputFilename == DefaultInputFilename
    ensures i.outputFilename == None ==> p.outputFilename == DefaultOutputFilename
    // a value that was given always wins over the default
    ensures i.scaler.Some? ==> p.scaler == i.scaler.value
    ensures i.mkmFilename.Some? ==> p.mkmFilename == i.mkmFilename.value
    ensures i.dataFile.Some? ==> p.dataFile == i.dataFile.value
    ensures i.beta.Some? ==> p.beta == i.beta.value
    ensures i.numericalSolver.Some? ==> p.numericalSolver == i.numericalSolver.value
    ensures i.potentialReferenceScale.Some? ==> p.potentialReferenceScale == i.potentialReferenceScale.value
    ensures i.extrapolatedPotential.Some? ==> p.extrapolatedPotential == i.extrapolatedPotential.value
    ensures i.voltageDiffDrop.Some? ==> p.voltageDiffDrop == i.voltageDiffDrop.value
    ensures i.sigmaInput.Some? ==> p.sigmaInput == i.sigmaInput.value
    ensures i.upzc.Some? ==> p.upzc == i.upzc.value
    ensures i.inputFilename.Some? ==> p.inputFilename == i.inputFilename.value
    ensures i.outputFilename.Some? ==> p.outputFilename == i.outputFilename.value
  {
    Parameters(
      i.electrocatal.GetOr(true),
      i.energies,
      i.scaler.GetOr(GeneralizedLinearScaler),
      i.rxnExpressions, i.surfaceNames, i.descriptorNames, i.descriptorRanges,
      i.resolution, i.temperature, i.speciesDefinitions,
      i.gasThermoMode, i.adsorbateThermoMode,
      i.scalingConstraintDict,
      i.numericalSolver.GetOr(DefaultNumericalSolver),
      i.decimalPrecision, i.tolerance, i.maxRootfindingIterations, i.maxBisections,
      i.mkmFilename.GetOr(InputFileName),
      i.dataFile.GetOr(DefaultDataFile),
      i.idealGasParams,
      i.voltage, i.electrochemicalThermoMode, i.pH,
      i.beta.GetOr(DefaultBeta),
      i.potentialReferenceScale.GetOr(DefaultPotentialReferenceScale),
      i.extrapolatedPotential.GetOr(FloatZero),
      i.voltageDiffDrop.GetOr(FloatZero),
      i.sigmaInput.GetOr(DefaultSigmaInput),
      i.upzc.GetOr(FloatZero),
      i.inputFilename.GetOr(DefaultInputFilename),
      i.outputFilename.GetOr(DefaultOutputFilename))
  }

  /** The ports without a default pass through the defaulting unchanged. */
  lemma ApplyDefaultsPassThrough(i: Inputs)
    ensures var p := ApplyDefaults(i);
      && p.energies == i.energies
      && p.rxnExpressions == i.rxnExpressions && p.surfaceNames == i.surfaceNames
      && p.descriptorNames == i.descriptorNames && p.descriptorRanges == i.descriptorRanges
      && p.resolution == i.resolution && p.temperature == i.temperature
      && p.speciesDefinitions == i.speciesDefinitions
      && p.gasThermoMode == i.gasThermoMode && p.adsorbateThermoMode == i.adsorbateThermoMode
      && p.decimalPrecision == i.decimalPrecision && p.tolerance == i.tolerance
      && p.maxRootfindingIterations == i.maxRootfindingIterations && p.maxBisections == i.maxBisections
      && p.idealGasParams == i.idealGasParams
      && p.scalingConstraintDict == i.scalingConstraintDict && p.voltage == i.voltage
      && p.pH == i.pH && p.electrochemicalThermoMode == i.electrochemicalThermoMode
  {
  }

  /**
   * The ports that `prepare_for_submission` reads although they have no
   * default: the scaling constraints always; in an electrocatalysis run the
   * list of electrochemical thermodynamics modes; and with the generalized
   * linear scaler also the voltage and the pH. A run without one of them
   * fails with an uncaught error part-way through writing.
   */
  predicate Ready(p: Parameters) {
    && p.scalingConstraintDict.Some?
    && (p.electrocatal ==> p.electrochemicalThermoMode.Some?)
    && (p.electrocatal && p.scaler == GeneralizedLinearScaler ==> p.voltage.Some? && p.pH.Some?)
  }

  // ---------------------------------------------------------------------------
  // The variables of the configuration file
  // ---------------------------------------------------------------------------

  const ScalerKey: Key := "scaler"
  const RxnExpressionsKey: Key := "rxn_expressions"
  const SurfaceNamesKey: Key := "surface_names"
  const DescriptorNamesKey: Key := "descriptor_names"
  const DescriptorRangesKey: Key := "descriptor_ranges"
  const ResolutionKey: Key := "resolution"
  const TemperatureKey: Key := "temperature"
  const SpeciesDefinitionsKey: Key := "species_definitions"
  const DataFileKey: Key := "data_file"
  const InputFileKey: Key := "input_file"
  const GasThermoModeKey: Key := "gas_thermo_mode"
  const AdsorbateThermoModeKey: Key := "adsorbate_thermo_mode"
  const ScalingConstraintDictKey: Key := "scaling_constraint_dict"
  const VoltageKey: Key := "voltage"
  const PhKey: Key := "pH"
  const PotentialReferenceScaleKey: Key := "potential_reference_scale"
  const ExtrapolatedPotentialKey: Key := "extrapolated_potential"
  const VoltageDiffDropKey: Key := "voltage_diff_drop"
  const SigmaInputKey: Key := "sigma_input"
  const UpzcKey: Key := "Upzc"
  const BetaKey: Key := "beta"
  const ElectrochemicalThermoModeKey: Key := "electrochemical_thermo_mode"
  const DecimalPrecisionKey: Key := "decimal_precision"
  const ToleranceKey: Key := "tolerance"
  const MaxRootfindingIterationsKey: Key := "max_rootfinding_iterations"
  const MaxBisectionsKey: Key := "max_bisections"
  const NumericalSolverKey: Key := "numerical_solver"

  // ---------------------------------------------------------------------------
  // The configuration file, as settings
  // ---------------------------------------------------------------------------

  /** The thirteen settings every configuration file starts with. */
  function HeaderSettings(p: Parameters, render: Renderer): seq<Setting>
    requires p.scalingConstraintDict.Some?
  {
    [ Setting(ScalerKey, Quoted(p.scaler)),
      Setting(RxnExpressionsKey, render(List(p.rxnExpressions))),
      Setting(SurfaceNamesKey, render(List(p.surfaceNames))),
      Setting(DescriptorNamesKey, render(List(p.descriptorNames))),
      Setting(DescriptorRangesKey, render(List(p.descriptorRanges))),
      Setting(ResolutionKey, render(Int(p.resolution))),
      Setting(TemperatureKey, render(Float(p.temperature))),
      Setting(SpeciesDefinitionsKey, render(Dict(p.speciesDefinitions))),
      Setting(DataFileKey, Quoted(p.dataFile)),
      Setting(InputFileKey, Quoted(p.energies.filename)),
      Setting(GasThermoModeKey, Quoted(p.gasThermoMode)),
      Setting(AdsorbateThermoModeKey, Quoted(p.adsorbateThermoMode)),
      Setting(ScalingConstraintDictKey, render(Dict(p.scalingConstraintDict.value))) ]
  }

  /** The electrochemistry settings that depend on the scaler. */
  function ScalerSettings(p: Parameters, render: Renderer): seq<Setting>
    requires p.scaler == GeneralizedLinearScaler ==> p.voltage.Some? && p.pH.Some?
  {
    if p.scaler == GeneralizedLinearScaler then
      [ Setting(VoltageKey, render(Float(p.voltage.value))),
        Setting(PhKey, render(Float(p.pH.value))) ]
    else
      [ Setting(PotentialReferenceScaleKey, Quoted(p.potentialReferenceScale)),
        Setting(ExtrapolatedPotentialKey, render(Float(p.extrapolatedPotential))),
        Setting(VoltageDiffDropKey, render(Float(p.voltageDiffDrop))),
        Setting(SigmaInputKey, render(List(p.sigmaInput))),
        Setting(UpzcKey, render(Float(p.upzc))) ]
  }

  /** One `electrochemical_thermo_mode` setting per mode, in list order. */
  function ModeSettings(modes: seq<string>): seq<Setting> {
    if |modes| == 0 then []
    else ModeSettings(modes[..|modes| - 1]) + [Setting(ElectrochemicalThermoModeKey, Quoted(modes[|modes| - 1]))]
  }

  /** The electrochemistry block, empty in a thermal-catalysis run. */
  function ElectroSettings(p: Parameters, render: Renderer): seq<Setting>
    requires Ready(p)
  {
    if p.electrocatal then
      ScalerSettings(p, render) + [Setting(BetaKey, render(Float(p.beta)))]
      + ModeSettings(p.electrochemicalThermoMode.value)
    else []
  }

  /** The five numerical settings every configuration file ends with. */
  function FooterSettings(p: Parameters, render: Renderer): seq<Setting> {
    [ Setting(DecimalPrecisionKey, render(Int(p.decimalPrecision))),
      Setting(ToleranceKey, render(Float(p.tolerance))),
      Setting(MaxRootfindingIterationsKey, render(Int(p.maxRootfindingIterations))),
      Setting(MaxBisectionsKey, render(Int(p.maxBisections))),
      Setting(NumericalSolverKey, Quoted(p.numericalSolver)) ]
  }

  function MkmSettings(p: Parameters, render: Renderer): seq<Setting>
    requires Ready(p)
  {
    HeaderSettings(p, render) + ElectroSettings(p, render) + FooterSettings(p, render)
  }

  /** The lines of the configuration file. */
  function MkmFile(p: Parameters, render: Renderer): seq<string>
    requires Ready(p)
  {
    Lines(MkmSettings(p, render))
  }

  // ---------------------------------------------------------------------------
  // Writing the files
  // ---------------------------------------------------------------------------

  /** A written file: its name and its lines. */
  datatype TextFile = TextFile(name: string, lines: seq<string>)

  /** An entry of the local copy list: stored node, source name, name in the working directory. */
  datatype CopyEntry = CopyEntry(uuid: string, source: string, target: string)

  /** What the engine needs besides the written files. */
  datatype CalcInfo = CalcInfo(localCopyList: seq<CopyEntry>, retrieveList: seq<string>)

  /** Writes the configuration file line by line, in the order the job writes it. */
  method WriteMkmFile(p: Parameters, render: Renderer) returns (file: seq<string>)
    requires Ready(p)
    ensures file == MkmFile(p, render)
  {
    file := WriteReactionConditions(p, render, []);
    file := WriteElectrochemistry(p, render, file);
    file := WriteNumerics(p, render, file);
    var h, e, f := HeaderSettings(p, render), ElectroSettings(p, render), FooterSettings(p, render);
    LinesAppend(h, e);
    LinesAppend(h + e, f);
  }

  /** The reaction conditions: the thirteen lines every configuration file starts with. */
  method WriteReactionConditions(p: Parameters, render: Renderer, written: seq<string>)
    returns (file: seq<string>)
    requires p.scalingConstraintDict.Some?
    ensures file == written + Lines(HeaderSettings(p, render))
  {
    file := written;
    file := file + [Assign(ScalerKey, Quoted(p.scaler))];
    file := file + [Assign(RxnExpressionsKey, render(List(p.rxnExpressions)))];
    file := file + [Assign(SurfaceNamesKey, render(List(p.surfaceNames)))];
    file := file + [Assign(DescriptorNamesKey, render(List(p.descriptorNames)))];
    file := file + [Assign(DescriptorRangesKey, render(List(p.descriptorRanges)))];
    file := file + [Assign(ResolutionKey, render(Int(p.resolution)))];
    file := file + [Assign(TemperatureKey, render(Float(p.temperature)))];
    file := file + [Assign(SpeciesDefinitionsKey, render(Dict(p.speciesDefinitions)))];
    file := file + [Assign(DataFileKey, Quoted(p.dataFile))];
    file := file + [Assign(InputFileKey, Quoted(p.energies.filename))];
    file := file + [Assign(GasThermoModeKey, Quoted(p.gasThermoMode))];
    file := file + [Assign(AdsorbateThermoModeKey, Quoted(p.adsorbateThermoMode))];
    file := file + [Assign(ScalingConstraintDictKey, render(Dict(p.scalingConstraintDict.value)))];
  }

  /**
   * The electrochemistry block: nothing in a thermal-catalysis run; otherwise
   * the scaler's variables, beta, and one line per thermodynamics mode.
   */
  method WriteElectrochemistry(p: Parameters, render: Renderer, written: seq<string>)
    returns (file: seq<string>)
    requires Ready(p)
    ensures file == written + Lines(ElectroSettings(p, render))
  {
    file := written;
    if p.electrocatal {
      file := WriteScalerConditions(p, render, file);
      file := file + [Assign(BetaKey, render(Float(p.beta)))];
      var fixed := ScalerSettings(p, render) + [Setting(BetaKey, render(Float(p.beta)))];
      LinesAppend(ScalerSettings(p, render), [Setting(BetaKey, render(Float(p.beta)))]);
      var modes := p.electrochemicalThermoMode.value;
      for k := 0 to |modes|
        invariant file == written + Lines(fixed) + Lines(ModeSettings(modes[..k]))
      {
        file := file + [Assign(ElectrochemicalThermoModeKey, Quoted(modes[k]))];
        assert modes[..k + 1][..k] == modes[..k];
        LinesAppend(ModeSettings(modes[..k]), [Setting(ElectrochemicalThermoModeKey, Quoted(modes[k]))]);
      }
      assert modes[..|modes|] == modes;
      LinesAppend(fixed, ModeSettings(modes));
    }
  }

  /**
   * The scaler-dependent conditions: the voltage and the pH for the
   * generalized linear scaler, the reference scale and the double-layer
   * variables for any other scaler.
   */
  method WriteScalerConditions(p: Parameters, render: Renderer, written: seq<string>)
    returns (file: seq<string>)
    requires Ready(p) && p.electrocatal
    ensures file == written + Lines(ScalerSettings(p, render))
  {
    file := written;
    if p.scaler == GeneralizedLinearScaler {
      file := file + [Assign(VoltageKey, render(Float(p.voltage.value)))];
      file := file + [Assign(PhKey, render(Float(p.pH.value)))];
    } else if p.scaler != GeneralizedLinearScaler {
      file := file + [Assign(PotentialReferenceScaleKey, Quoted(p.potentialReferenceScale))];
      file := file + [Assign(ExtrapolatedPotentialKey, render(Float(p.extrapolatedPotential)))];
      file := file + [Assign(VoltageDiffDropKey, render(Float(p.voltageDiffDrop)))];
      file := file + [Assign(SigmaInputKey, render(List(p.sigmaInput)))];
      file := file + [Assign(UpzcKey, render(Float(p.upzc)))];
    }
  }

  /** The numerical settings, written last. */
  method WriteNumerics(p: Parameters, render: Renderer, written: seq<string>)
    returns (file: seq<string>)
    ensures file == written + Lines(FooterSettings(p, render))
  {
    file := written;
    file := file + [Assign(DecimalPrecisionKey, render(Int(p.decimalPrecision)))];
    file := file + [Assign(ToleranceKey, render(Float(p.tolerance)))];
    file := file + [Assign(MaxRootfindingIterationsKey, render(Int(p.maxRootfindingIterations)))];
    file := file + [Assign(MaxBisectionsKey, render(Int(p.maxBisections)))];
    file := file + [Assign(NumericalSolverKey, Quoted(p.numericalSolver))];
  }

  /** The driver script: four fixed lines and the one naming the configuration file. */
  method WriteDriverScript(mkmFilename: string) returns (script: seq<string>)
    ensures |script| == 5
    ensures QuotedValue(script[1], "mkm_file") == Some(mkmFilename)
    ensures script[..1] + script[2..] == DriverFixedLines
    ensures script == [DriverFixedLines[0], Assign("mkm_file", Quoted(mkmFilename))] + DriverFixedLines[1..]
  {
    script := [];
    script := script + ["from catmap import ReactionModel \n"];
    script := script + [Assign("mkm_file", Quoted(mkmFilename))];
    script := script + ["model = ReactionModel(setup_file=mkm_file) \n"];
    script := script + ["model.output_variables += ['production_rate'] \n"];
    script := script + ["model.run() \n"];
    QuotedRoundTrip("mkm_file", mkmFilename);
  }

  /** The driver script's lines other than the templated second one. */
  const DriverFixedLines: seq<string> := [
    "from catmap import ReactionModel \n",
    "model = ReactionModel(setup_file=mkm_file) \n",
    "model.output_variables += ['production_rate'] \n",
    "model.run() \n"]

  /**
   * Writes both files into the (fresh) working folder and says what to
   * stage and what to fetch back. The names the configuration file gives
   * for the energies table and for the result file are the names the copy
   * list and the retrieve list use. The driver script loads the file named
   * like the configuration file; that file is still the configuration file
   * exactly when the two file names differ, because writing the driver
   * under the same name replaces it.
   */
  method PrepareForSubmission(p: Parameters, render: Renderer)
    returns (mkm: TextFile, driver: TextFile, info: CalcInfo, folder: map<string, seq<string>>)
    requires Ready(p)
    ensures mkm == TextFile(p.mkmFilename, MkmFile(p, render))
    ensures driver.name == p.inputFilename && |driver.lines| == 5
    ensures QuotedValue(driver.lines[1], "mkm_file") == Some(mkm.name)
    ensures driver.lines == [DriverFixedLines[0], Assign("mkm_file", Quoted(mkm.name))] + DriverFixedLines[1..]
    ensures folder.Keys == {mkm.name, driver.name}
    ensures folder[driver.name] == driver.lines
    ensures folder[mkm.name] == mkm.lines <==> mkm.name != driver.name
    ensures info.localCopyList == [CopyEntry(p.energies.uuid, p.energies.filename, p.energies.filename)]
    ensures info.retrieveList == [p.outputFilename, p.dataFile]
    ensures |mkm.lines| >= 18
    ensures QuotedValue(mkm.lines[9], InputFileKey) == Some(info.localCopyList[0].target)
    ensures QuotedValue(mkm.lines[8], DataFileKey) == Some(info.retrieveList[1])
  {
    folder := map[];
    var lines := WriteMkmFile(p, render);
    mkm := TextFile(p.mkmFilename, lines);
    folder := folder[mkm.name := mkm.lines];
    var script := WriteDriverScript(p.mkmFilename);
    driver := TextFile(p.inputFilename, script);
    folder := folder[driver.name := driver.lines];
    info := CalcInfo(
      [CopyEntry(p.energies.uuid, p.energies.filename, p.energies.filename)],
      [p.outputFilename, p.dataFile]);
    FileNamesWritten(p, render);
  }

  // ---------------------------------------------------------------------------
  // Properties of the configuration file
  // ---------------------------------------------------------------------------

  const HeaderNames: seq<Key> := [
    ScalerKey, RxnExpressionsKey, SurfaceNamesKey, DescriptorNamesKey, DescriptorRangesKey,
    ResolutionKey, TemperatureKey, SpeciesDefinitionsKey, DataFileKey, InputFileKey,
    GasThermoModeKey, AdsorbateThermoModeKey, ScalingConstraintDictKey]

  const FooterNames: seq<Key> := [
    DecimalPrecisionKey, ToleranceKey, MaxRootfindingIterationsKey, MaxBisectionsKey,
    NumericalSolverKey]

  const GlsNames: seq<Key> := [VoltageKey, PhKey]

  const NonGlsNames: seq<Key> := [
    PotentialReferenceScaleKey, ExtrapolatedPotentialKey, VoltageDiffDropKey,
    SigmaInputKey, UpzcKey]

  /** Every variable only an electrocatalysis run writes. */
  const ElectroOnlyNames: seq<Key> :=
    GlsNames + NonGlsNames + [BetaKey, ElectrochemicalThermoModeKey]

  /** `n` copies of `name`. */
  function Repeat(name: Key, n: nat): (r: seq<Key>)
    ensures |r| == n && forall k :: 0 <= k < n ==> r[k] == name
  {
    if n == 0 then [] else Repeat(name, n - 1) + [name]
  }

  /** The number of lines of the configuration file. */
  function LineCount(p: Parameters): nat
    requires Ready(p)
  {
    18 + if p.electrocatal then
      (if p.scaler == GeneralizedLinearScaler then 2 else 5) + 1 + |p.electrochemicalThermoMode.value|
    else 0
  }

  lemma {:induction false} ModeSettingsShape(modes: seq<string>)
    ensures Names(ModeSettings(modes)) == Repeat(ElectrochemicalThermoModeKey, |modes|)
    ensures |ModeSettings(modes)| == |modes|
    ensures forall k :: 0 <= k < |modes| ==>
      ModeSettings(modes)[k] == Setting(ElectrochemicalThermoModeKey, Quoted(modes[k]))
  {
    if |modes| > 0 {
      var init := modes[..|modes| - 1];
      ModeSettingsShape(init);
      NamesAppend(ModeSettings(init), [Setting(ElectrochemicalThermoModeKey, Quoted(modes[|modes| - 1]))]);
    }
  }

  lemma HeaderNamesOf(p: Parameters, render: Renderer)
    requires p.scalingConstraintDict.Some?
    ensures Names(HeaderSettings(p, render)) == HeaderNames
  {
  }

  lemma FooterNamesOf(p: Parameters, render: Renderer)
    ensures Names(FooterSettings(p, render)) == FooterNames
  {
  }

  lemma ElectroNamesOf(p: Parameters, render: Renderer)
    requires Ready(p) && p.electrocatal
    ensures Names(ElectroSettings(p, render)) ==
      (if p.scaler == GeneralizedLinearScaler then GlsNames else NonGlsNames) + [BetaKey]
        + Repeat(ElectrochemicalThermoModeKey, |p.electrochemicalThermoMode.value|)
  {
    var s, b, m := ScalerSettings(p, render), [Setting(BetaKey, render(Float(p.beta)))],
      ModeSettings(p.electrochemicalThermoMode.value);
    NamesAppend(s + b, m);
    NamesAppend(s, b);
    ModeSettingsShape(p.electrochemicalThermoMode.value);
  }

  /**
   * The exact sequence of variables the configuration file assigns, in
   * order, for each of the three layouts.
   */
  lemma LayoutNames(p: Parameters, render: Renderer)
    requires Ready(p)
    ensures !p.electrocatal ==> Names(MkmSettings(p, render)) == HeaderNames + FooterNames
    ensures p.electrocatal && p.scaler == GeneralizedLinearScaler ==>
      Names(MkmSettings(p, render)) == HeaderNames + GlsNames + [BetaKey]
        + Repeat(ElectrochemicalThermoModeKey, |p.electrochemicalThermoMode.value|) + FooterNames
    ensures p.electrocatal && p.scaler != GeneralizedLinearScaler ==>
      Names(MkmSettings(p, render)) == HeaderNames + NonGlsNames + [BetaKey]
        + Repeat(ElectrochemicalThermoModeKey, |p.electrochemicalThermoMode.value|) + FooterNames
  {
    var h, e, f := HeaderSettings(p, render), ElectroSettings(p, render), FooterSettings(p, render);
    NamesAppend(h + e, f);
    NamesAppend(h, e);
    HeaderNamesOf(p, render);
    FooterNamesOf(p, render);
    if p.electrocatal {
      ElectroNamesOf(p, render);
    }
  }

  /** The file has exactly `LineCount(p)` lines. */
  lemma LineCountFormula(p: Parameters, render: Renderer)
    requires Ready(p)
    ensures |MkmFile(p, render)| == LineCount(p)
  {
    LayoutNames(p, render);
  }

  /** No electrochemistry variable is one of the variables every file assigns. */
  lemma ElectroNamesAreNotFixed()
    ensures forall n :: n in ElectroOnlyNames ==> n !in HeaderNames && n !in FooterNames
  {
  }

  /** The two scalers' variables are disjoint, and none of them is beta or the thermodynamics mode. */
  lemma ScalerNamesDisjoint()
    ensures forall n :: n in GlsNames ==> n !in NonGlsNames
    ensures forall n :: n in GlsNames + NonGlsNames ==> n != BetaKey && n != ElectrochemicalThermoModeKey
  {
  }

  /**
   * Every configuration file starts with the same thirteen assignments and
   * ends with the same five, in this order; every line is an assignment
   * `name = rhs \n`.
   */
  lemma FixedHeaderAndFooter(p: Parameters, render: Renderer)
    requires Ready(p)
    ensures |MkmFile(p, render)| >= 18
    ensures forall k :: 0 <= k < 13 ==> StartsWith(MkmFile(p, render)[k], HeaderNames[k] + " = ")
    ensures forall k :: 0 <= k < 5 ==>
      StartsWith(MkmFile(p, render)[|MkmFile(p, render)| - 5 + k], FooterNames[k] + " = ")
    ensures forall k :: 0 <= k < |MkmFile(p, render)| ==> EndsWith(MkmFile(p, render)[k], " \n")
  {
    var ss := MkmSettings(p, render);
    var h, e, f := HeaderSettings(p, render), ElectroSettings(p, render), FooterSettings(p, render);
    NamesAppend(h + e, f);
    NamesAppend(h, e);
    HeaderNamesOf(p, render);
    FooterNamesOf(p, render);
    LineShape(ss);
    var n := |ss|;
    forall k | 0 <= k < 13 ensures Names(ss)[k] == HeaderNames[k] {
      assert Names(ss)[k] == Names(h)[k];
    }
    forall k | 0 <= k < 5 ensures Names(ss)[n - 5 + k] == FooterNames[k] {
      assert Names(ss)[n - 5 + k] == Names(f)[k];
    }
  }

  /**
   * A thermal-catalysis run writes exactly the header and the footer: 18
   * lines, none of them assigning an electrochemistry variable.
   */
  lemma ThermalLayout(p: Parameters, render: Renderer)
    requires Ready(p) && !p.electrocatal
    ensures |MkmFile(p, render)| == 18
    ensures forall n :: n in ElectroOnlyNames ==> !Mentions(MkmFile(p, render), n)
  {
    LayoutNames(p, render);
    ElectroNamesAreNotFixed();
    forall n | n in ElectroOnlyNames ensures !Mentions(MkmFile(p, render), n) {
      MentionsIffNamed(MkmSettings(p, render), n);
    }
  }

  /**
   * An electrocatalysis run with the generalized linear scaler assigns the
   * voltage, the pH and beta, and none of the other scaler's variables.
   */
  lemma GlsLayout(p: Parameters, render: Renderer)
    requires Ready(p) && p.electrocatal && p.scaler == GeneralizedLinearScaler
    ensures Mentions(MkmFile(p, render), VoltageKey) && Mentions(MkmFile(p, render), PhKey)
    ensures Mentions(MkmFile(p, render), BetaKey)
    ensures forall n :: n in NonGlsNames ==> !Mentions(MkmFile(p, render), n)
  {
    var ss := MkmSettings(p, render);
    LayoutNames(p, render);
    ElectroNamesAreNotFixed();
    ScalerNamesDisjoint();
    assert Names(ss)[13] == VoltageKey && Names(ss)[14] == PhKey && Names(ss)[15] == BetaKey;
    MentionsIffNamed(ss, VoltageKey);
    MentionsIffNamed(ss, PhKey);
    MentionsIffNamed(ss, BetaKey);
    forall n | n in NonGlsNames ensures !Mentions(MkmFile(p, render), n) {
      MentionsIffNamed(ss, n);
    }
  }

  /**
   * An electrocatalysis run with any other scaler assigns the five reference
   * and double-layer variables and beta, and neither the voltage nor the pH.
   */
  lemma OtherScalerLayout(p: Parameters, render: Renderer)
    requires Ready(p) && p.electrocatal && p.scaler != GeneralizedLinearScaler
    ensures forall n :: n in NonGlsNames ==> Mentions(MkmFile(p, render), n)
    ensures Mentions(MkmFile(p, render), BetaKey)
  {
    var ss := MkmSettings(p, render);
    LayoutNames(p, render);
    assert Names(ss)[18] == BetaKey;
    MentionsIffNamed(ss, BetaKey);
    forall n | n in NonGlsNames ensures Mentions(MkmFile(p, render), n) {
      var j :| 0 <= j < 5 && NonGlsNames[j] == n;
      assert Names(ss)[13 + j] == n;
      MentionsIffNamed(ss, n);
    }
  }

  /** ... and it assigns neither the voltage nor the pH. */
  lemma OtherScalerOmitsConditions(p: Parameters, render: Renderer)
    requires Ready(p) && p.electrocatal && p.scaler != GeneralizedLinearScaler
    ensures !Mentions(MkmFile(p, render), VoltageKey) && !Mentions(MkmFile(p, render), PhKey)
  {
    var ss := MkmSettings(p, render);
    LayoutNames(p, render);
    ElectroNamesAreNotFixed();
    ScalerNamesDisjoint();
    MentionsIffNamed(ss, VoltageKey);
    MentionsIffNamed(ss, PhKey);
  }

  /** The header and the footer blocks, as lines of the file. */
  lemma FixedBlocksAt(p: Parameters, render: Renderer)
    requires Ready(p)
    ensures var file := MkmFile(p, render);
      && |file| >= 18
      && file[..13] == Lines(HeaderSettings(p, render))
      && file[|file| - 5..] == Lines(FooterSettings(p, render))
  {
    var h, e, f := HeaderSettings(p, render), ElectroSettings(p, render), FooterSettings(p, render);
    LinesAppend(h + e, f);
    LinesAppend(h, e);
  }

  /** The electrochemistry block, as lines of the file right after the header. */
  lemma ElectroBlockAt(p: Parameters, render: Renderer)
    requires Ready(p)
    ensures var file := MkmFile(p, render);
      var e := ElectroSettings(p, render);
      |file| == 13 + |e| + 5 && file[13..13 + |e|] == Lines(e)
  {
    var h, e, f := HeaderSettings(p, render), ElectroSettings(p, render), FooterSettings(p, render);
    LinesAppend(h + e, f);
    LinesAppend(h, e);
  }

  /**
   * The electrochemistry block's lines: the scaler's lines (two or five,
   * spelled out by `ScalerLines`), then beta, then one
   * `electrochemical_thermo_mode` line per list element, in list order,
   * duplicates kept.
   */
  lemma ElectroBlockLines(p: Parameters, render: Renderer)
    requires Ready(p) && p.electrocatal
    ensures var e := Lines(ElectroSettings(p, render));
      var scaler := Lines(ScalerSettings(p, render));
      var modes := p.electrochemicalThermoMode.value;
      var first := |scaler| + 1;
      && |scaler| == (if p.scaler == GeneralizedLinearScaler then 2 else 5)
      && |e| == first + |modes|
      && e[..|scaler|] == scaler
      && e[first - 1] == Assign(BetaKey, render(Float(p.beta)))
      && forall k :: 0 <= k < |modes| ==>
           e[first + k] == Assign(ElectrochemicalThermoModeKey, Quoted(modes[k]))
  {
    var modes := p.electrochemicalThermoMode.value;
    var s, b, m := ScalerSettings(p, render), [Setting(BetaKey, render(Float(p.beta)))], ModeSettings(modes);
    ModeSettingsShape(modes);
    LinesAppend(s + b, m);
    LinesAppend(s, b);
  }

  /** The lines of the scaler-dependent conditions, for each scaler. */
  lemma ScalerLines(p: Parameters, render: Renderer)
    requires p.scaler == GeneralizedLinearScaler ==> p.voltage.Some? && p.pH.Some?
    ensures Lines(ScalerSettings(p, render)) ==
      if p.scaler == GeneralizedLinearScaler then
        [ Assign(VoltageKey, render(Float(p.voltage.value))),
          Assign(PhKey, render(Float(p.pH.value))) ]
      else
        [ Assign(PotentialReferenceScaleKey, Quoted(p.potentialReferenceScale)),
          Assign(ExtrapolatedPotentialKey, render(Float(p.extrapolatedPotential))),
          Assign(VoltageDiffDropKey, render(Float(p.voltageDiffDrop))),
          Assign(SigmaInputKey, render(List(p.sigmaInput))),
          Assign(UpzcKey, render(Float(p.upzc))) ]
  {
  }

  /**
   * In an electrocatalysis run beta follows the scaler's variables, and one
   * `electrochemical_thermo_mode` line per list element follows beta, in
   * list order, duplicates kept; every value reads back exactly.
   */
  lemma ElectroValues(p: Parameters, render: Renderer)
    requires Ready(p) && p.electrocatal
    ensures var file := MkmFile(p, render);
      var modes := p.electrochemicalThermoMode.value;
      var first := if p.scaler == GeneralizedLinearScaler then 16 else 19;
      && |file| == first + |modes| + 5
      && file[first - 1] == Assign(BetaKey, render(Float(p.beta)))
      && (p.scaler == GeneralizedLinearScaler ==>
            && file[13] == Assign(VoltageKey, render(Float(p.voltage.value)))
            && file[14] == Assign(PhKey, render(Float(p.pH.value))))
      && (p.scaler != GeneralizedLinearScaler ==>
            QuotedValue(file[13], PotentialReferenceScaleKey) == Some(p.potentialReferenceScale))
      && forall k :: 0 <= k < |modes| ==>
           QuotedValue(file[first + k], ElectrochemicalThermoModeKey) == Some(modes[k])
  {
    var file := MkmFile(p, render);
    var modes := p.electrochemicalThermoMode.value;
    var first := if p.scaler == GeneralizedLinearScaler then 16 else 19;
    var e := Lines(ElectroSettings(p, render));
    ElectroBlockAt(p, render);
    ElectroBlockLines(p, render);
    ScalerLines(p, render);
    assert forall k :: 0 <= k < |e| ==> file[13 + k] == e[k];
    assert e[0] == e[..first - 14][0] && e[1] == e[..first - 14][1];
    forall k | 0 <= k < |modes|
      ensures QuotedValue(file[first + k], ElectrochemicalThermoModeKey) == Some(modes[k])
    {
      assert file[first + k] == e[first - 13 + k];
      QuotedRoundTrip(ElectrochemicalThermoModeKey, modes[k]);
    }
    if p.scaler != GeneralizedLinearScaler {
      QuotedRoundTrip(PotentialReferenceScaleKey, p.potentialReferenceScale);
    }
  }

  /**
   * With any scaler other than the generalized linear one, the reference
   * scale is followed by the extrapolated potential, the voltage drop, the
   * sigma input and Upzc, written unquoted (by default 0.0, 0.0, ['CH', 0]
   * and 0.0).
   */
  lemma OtherScalerValues(p: Parameters, render: Renderer)
    requires Ready(p) && p.electrocatal && p.scaler != GeneralizedLinearScaler
    ensures var file := MkmFile(p, render);
      && |file| >= 24
      && file[14] == Assign(ExtrapolatedPotentialKey, render(Float(p.extrapolatedPotential)))
      && file[15] == Assign(VoltageDiffDropKey, render(Float(p.voltageDiffDrop)))
      && file[16] == Assign(SigmaInputKey, render(List(p.sigmaInput)))
      && file[17] == Assign(UpzcKey, render(Float(p.upzc)))
  {
    var file := MkmFile(p, render);
    var e := Lines(ElectroSettings(p, render));
    ElectroBlockAt(p, render);
    ElectroBlockLines(p, render);
    ScalerLines(p, render);
    assert file[14] == e[1] && file[15] == e[2] && file[16] == e[3] && file[17] == e[4];
    assert e[1] == e[..5][1] && e[2] == e[..5][2] && e[3] == e[..5][3] && e[4] == e[..5][4];
  }

  /**
   * The string settings of the header and the footer are written quoted,
   * so their values read back exactly.
   */
  lemma QuotedSettingValues(p: Parameters, render: Renderer)
    requires Ready(p)
    ensures var file := MkmFile(p, render);
      && |file| >= 18
      && QuotedValue(file[0], ScalerKey) == Some(p.scaler)
      && QuotedValue(file[8], DataFileKey) == Some(p.dataFile)
      && QuotedValue(file[9], InputFileKey) == Some(p.energies.filename)
      && QuotedValue(file[10], GasThermoModeKey) == Some(p.gasThermoMode)
      && QuotedValue(file[11], AdsorbateThermoModeKey) == Some(p.adsorbateThermoMode)
      && QuotedValue(file[|file| - 1], NumericalSolverKey) == Some(p.numericalSolver)
  {
    var file := MkmFile(p, render);
    FixedBlocksAt(p, render);
    assert file[0] == file[..13][0] && file[8] == file[..13][8] && file[9] == file[..13][9];
    assert file[10] == file[..13][10] && file[11] == file[..13][11];
    assert file[|file| - 1] == file[|file| - 5..][4];
    QuotedRoundTrip(ScalerKey, p.scaler);
    QuotedRoundTrip(DataFileKey, p.dataFile);
    QuotedRoundTrip(InputFileKey, p.energies.filename);
    QuotedRoundTrip(GasThermoModeKey, p.gasThermoMode);
    QuotedRoundTrip(AdsorbateThermoModeKey, p.adsorbateThermoMode);
    QuotedRoundTrip(NumericalSolverKey, p.numericalSolver);
  }

  /** Numbers and containers are written unquoted, as the renderer shows them. */
  lemma RenderedSettingValues(p: Parameters, render: Renderer)
    requires Ready(p)
    ensures var file := MkmFile(p, render);
      && |file| >= 18
      && file[1] == Assign(RxnExpressionsKey, render(List(p.rxnExpressions)))
      && file[2] == Assign(SurfaceNamesKey, render(List(p.surfaceNames)))
      && file[3] == Assign(DescriptorNamesKey, render(List(p.descriptorNames)))
      && file[4] == Assign(DescriptorRangesKey, render(List(p.descriptorRanges)))
      && file[5] == Assign(ResolutionKey, render(Int(p.resolution)))
      && file[6] == Assign(TemperatureKey, render(Float(p.temperature)))
      && file[7] == Assign(SpeciesDefinitionsKey, render(Dict(p.speciesDefinitions)))
      && file[12] == Assign(ScalingConstraintDictKey, render(Dict(p.scalingConstraintDict.value)))
      && file[|file| - 5] == Assign(DecimalPrecisionKey, render(Int(p.decimalPrecision)))
      && file[|file| - 4] == Assign(ToleranceKey, render(Float(p.tolerance)))
      && file[|file| - 3] == Assign(MaxRootfindingIterationsKey, render(Int(p.maxRootfindingIterations)))
      && file[|file| - 2] == Assign(MaxBisectionsKey, render(Int(p.maxBisections)))
  {
    var file := MkmFile(p, render);
    FixedBlocksAt(p, render);
    assert file[1] == file[..13][1] && file[4] == file[..13][4] && file[5] == file[..13][5];
    assert file[6] == file[..13][6] && file[7] == file[..13][7] && file[12] == file[..13][12];
    assert file[2] == file[..13][2] && file[3] == file[..13][3];
    assert file[|file| - 5] == file[|file| - 5..][0] && file[|file| - 4] == file[|file| - 5..][1];
    assert file[|file| - 3] == file[|file| - 5..][2] && file[|file| - 2] == file[|file| - 5..][3];
  }

  /** The names of the energies table and of the result file, as the configuration file states them. */
  lemma FileNamesWritten(p: Parameters, render: Renderer)
    requires Ready(p)
    ensures |MkmFile(p, render)| >= 18
    ensures QuotedValue(MkmFile(p, render)[8], DataFileKey) == Some(p.dataFile)
    ensures QuotedValue(MkmFile(p, render)[9], InputFileKey) == Some(p.energies.filename)
  {
    QuotedSettingValues(p, render);
  }

  /**
   * Because `electrocatal` defaults to true, the 18-line thermal layout is
   * written exactly when the caller passes an explicit false.
   */
  lemma ThermalNeedsExplicitFalse(i: Inputs, render: Renderer)
    requires Ready(ApplyDefaults(i))
    ensures |MkmFile(ApplyDefaults(i), render)| == 18 <==> i.electrocatal == Some(false)
  {
    LineCountFormula(ApplyDefaults(i), render);
  }

  /**
   * With neither `electrocatal` nor `scaler` given, the file uses the
   * generalized-linear electrochemistry layout, and an unset beta is
   * written as 0.5.
   */
  lemma DefaultLayout(i: Inputs, render: Renderer)
    requires i.electrocatal == None && i.scaler == None && Ready(ApplyDefaults(i))
    ensures Mentions(MkmFile(ApplyDefaults(i), render), VoltageKey)
    ensures Mentions(MkmFile(ApplyDefaults(i), render), PhKey)
    ensures i.beta == None ==> MkmFile(ApplyDefaults(i), render)[15] == Assign(BetaKey, render(Float(DefaultBeta)))
  {
    GlsLayout(ApplyDefaults(i), render);
    ElectroValues(ApplyDefaults(i), render);
  }
}
