/**
 * The output parser of a CatMAP calculation: it checks that the retrieved
 * folder holds the log and the pickled results, emits the log, and then
 * emits the coverage, rate and production-rate maps with every number
 * converted to a float.
 *
 * Files are their byte contents. Unpickling the results file (`load`) and
 * converting a solver number to a float (`conv`) are parameters, because
 * both are foreign code.
 */
module CatmapParser {
  import opened CatmapCalculation

  /** One row of a result map: a descriptor point and the numbers computed at it. */
  datatype MapEntry<L, N> = MapEntry(point: L, values: seq<N>)

  /** The decoded pickle: result maps by name. */
  type Pickle<L, N> = map<string, seq<MapEntry<L, N>>>

  /** The output nodes the parser creates. */
  datatype OutputNode<L, F> = LogFile(content: seq<bv8>) | MapList(entries: seq<MapEntry<L, F>>)

  /** One output, attached under its link name. */
  datatype Emission<L, F> = Emission(link: string, node: OutputNode<L, F>)

  /**
   * How a parse ends: normally, with an exit code, or with a KeyError that
   * escapes the parser because nothing catches it.
   */
  datatype Outcome = Finished | Failed(code: ExitCode) | UncaughtKeyError(key: string)

  /** The outcome of a parse together with everything it emitted, in order. */
  datatype Run<L, F> = Run(outcome: Outcome, emitted: seq<Emission<L, F>>)

  const LogLink: string := "log"
  const CoverageMapKey: string := "coverage_map"
  const RateMapKey: string := "rate_map"
  const ProductionRateMapKey: string := "production_rate_map"

  /** Every expected name is among the retrieved ones (a subset test). */
  function Complete(expected: seq<string>, retrieved: set<string>): (b: bool)
    ensures b <==> forall k :: 0 <= k < |expected| ==> expected[k] in retrieved
  {
    (set n | n in expected) <= retrieved
  }

  /** The numbers of one row, each converted, in order. */
  function ConvertAll<N, F>(xs: seq<N>, conv: N -> F): (ys: seq<F>)
    ensures |ys| == |xs|
    ensures forall k :: 0 <= k < |xs| ==> ys[k] == conv(xs[k])
  {
    if |xs| == 0 then [] else ConvertAll(xs[..|xs| - 1], conv) + [conv(xs[|xs| - 1])]
  }

  /**
   * A result map with every number converted: same rows in the same order,
   * each point unchanged, each list of numbers converted element-wise.
   */
  function Normalise<L, N, F>(m: seq<MapEntry<L, N>>, conv: N -> F): (r: seq<MapEntry<L, F>>)
    ensures |r| == |m|
    ensures forall k :: 0 <= k < |m| ==> r[k].point == m[k].point
    ensures forall k :: 0 <= k < |m| ==>
      |r[k].values| == |m[k].values| &&
      forall j :: 0 <= j < |m[k].values| ==> r[k].values[j] == conv(m[k].values[j])
  {
    if |m| == 0 then []
    else
      var last := m[|m| - 1];
      Normalise(m[..|m| - 1], conv) + [MapEntry(last.point, ConvertAll(last.values, conv))]
  }

  /** What a parse does, step by step, as one value. */
  function ParseRun<L, N, F>(outputFilename: string, dataFile: string,
                             retrieved: map<string, seq<bv8>>,
                             load: seq<bv8> -> Pickle<L, N>, conv: N -> F): Run<L, F>
  {
    if !Complete([outputFilename, dataFile], retrieved.Keys) then
      Run(Failed(ERROR_MISSING_OUTPUT_FILES), [])
    else
      var log := [Emission(LogLink, LogFile(retrieved[outputFilename]))];
      var pickled := load(retrieved[dataFile]);
      if CoverageMapKey !in pickled then Run(Failed(ERROR_NO_PICKLE_FILE), log)
      else if RateMapKey !in pickled then Run(UncaughtKeyError(RateMapKey), log)
      else if ProductionRateMapKey !in pickled then Run(UncaughtKeyError(ProductionRateMapKey), log)
      else
        Run(Finished, log + [
          Emission(CoverageMapKey, MapList(Normalise(pickled[CoverageMapKey], conv))),
          Emission(RateMapKey, MapList(Normalise(pickled[RateMapKey], conv))),
          Emission(ProductionRateMapKey, MapList(Normalise(pickled[ProductionRateMapKey], conv)))])
  }

  /**
   * The parser of one calculation node. The node fixes the two file names;
   * `outputs` records every output attached so far, in order.
   */
  class CatMAPParser<L, F> {
    const outputFilename: string
    const dataFile: string
    var outputs: seq<Emission<L, F>>

    constructor (outputFilename: string, dataFile: string)
      ensures this.outputFilename == outputFilename && this.dataFile == dataFile
      ensures outputs == []
    {
      this.outputFilename := outputFilename;
      this.dataFile := dataFile;
      outputs := [];
    }

    /** Attaches one output. */
    method Out(link: string, node: OutputNode<L, F>)
      modifies this
      ensures outputs == old(outputs) + [Emission(link, node)]
    {
      outputs := outputs + [Emission(link, node)];
    }

    /** Parses the retrieved folder, attaching outputs as it goes. */
    method Parse<N>(retrieved: map<string, seq<bv8>>, load: seq<bv8> -> Pickle<L, N>, conv: N -> F)
      returns (outcome: Outcome)
      modifies this
      ensures var run := ParseRun(outputFilename, dataFile, retrieved, load, conv);
        outcome == run.outcome && outputs == old(outputs) + run.emitted
    {
      if !Complete([outputFilename, dataFile], retrieved.Keys) {
        return Failed(ERROR_MISSING_OUTPUT_FILES);
      }
      Out(LogLink, LogFile(retrieved[outputFilename]));
      var pickled := load(retrieved[dataFile]);
      if CoverageMapKey !in pickled {
        return Failed(ERROR_NO_PICKLE_FILE);
      }
      var coverage := Normalise(pickled[CoverageMapKey], conv);
      if RateMapKey !in pickled {
        return UncaughtKeyError(RateMapKey);
      }
      var rate := Normalise(pickled[RateMapKey], conv);
      if ProductionRateMapKey !in pickled {
        return UncaughtKeyError(ProductionRateMapKey);
      }
      var production := Normalise(pickled[ProductionRateMapKey], conv);
      Out(CoverageMapKey, MapList(coverage));
      Out(RateMapKey, MapList(rate));
      Out(ProductionRateMapKey, MapList(production));
      return Finished;
    }
  }

  /** Emitted for a complete folder before the pickle is looked at. */
  function LogEmission<L, F>(outputFilename: string, retrieved: map<string, seq<bv8>>): Emission<L, F>
    requires outputFilename in retrieved
  {
    Emission(LogLink, LogFile(retrieved[outputFilename]))
  }

  /**
   * The parse fails for missing files exactly when the log or the results
   * file was not retrieved, and then it emits nothing.
   */
  lemma MissingFiles<L, N, F>(outputFilename: string, dataFile: string,
                              retrieved: map<string, seq<bv8>>,
                              load: seq<bv8> -> Pickle<L, N>, conv: N -> F)
    ensures var run := ParseRun(outputFilename, dataFile, retrieved, load, conv);
      && (run.outcome == Failed(ERROR_MISSING_OUTPUT_FILES) <==>
            outputFilename !in retrieved || dataFile !in retrieved)
      && (run.outcome == Failed(ERROR_MISSING_OUTPUT_FILES) ==> |run.emitted| == 0)
  {
    var complete := Complete([outputFilename, dataFile], retrieved.Keys);
    assert complete <==> outputFilename in retrieved && dataFile in retrieved by {
      assert [outputFilename, dataFile][0] == outputFilename;
      assert [outputFilename, dataFile][1] == dataFile;
    }
  }

  /** Files retrieved beyond the two expected ones change nothing. */
  lemma ExtraFilesIrrelevant<L, N, F>(outputFilename: string, dataFile: string,
                                      retrieved: map<string, seq<bv8>>, extra: map<string, seq<bv8>>,
                                      load: seq<bv8> -> Pickle<L, N>, conv: N -> F)
    requires outputFilename !in extra && dataFile !in extra
    ensures ParseRun(outputFilename, dataFile, retrieved + extra, load, conv)
         == ParseRun(outputFilename, dataFile, retrieved, load, conv)
  {
    MissingFiles(outputFilename, dataFile, retrieved, load, conv);
    MissingFiles(outputFilename, dataFile, retrieved + extra, load, conv);
  }

  /**
   * A complete folder whose pickle has no coverage map fails with
   * ERROR_NO_PICKLE_FILE, and exactly then; the log has been emitted
   * already and nothing else.
   */
  lemma NoCoverageMap<L, N, F>(outputFilename: string, dataFile: string,
                               retrieved: map<string, seq<bv8>>,
                               load: seq<bv8> -> Pickle<L, N>, conv: N -> F)
    ensures var run := ParseRun(outputFilename, dataFile, retrieved, load, conv);
      && (run.outcome == Failed(ERROR_NO_PICKLE_FILE) <==>
            && outputFilename in retrieved && dataFile in retrieved
            && CoverageMapKey !in load(retrieved[dataFile]))
      && (run.outcome == Failed(ERROR_NO_PICKLE_FILE) ==>
            run.emitted == [LogEmission(outputFilename, retrieved)])
  {
    MissingFiles(outputFilename, dataFile, retrieved, load, conv);
  }

  /**
   * With a coverage map present, a missing rate map or production-rate map
   * escapes as an uncaught KeyError naming the first one missing; again
   * only the log has been emitted.
   */
  lemma UncaughtMissingMap<L, N, F>(outputFilename: string, dataFile: string,
                                    retrieved: map<string, seq<bv8>>,
                                    load: seq<bv8> -> Pickle<L, N>, conv: N -> F)
    ensures var run := ParseRun(outputFilename, dataFile, retrieved, load, conv);
      && (run.outcome.UncaughtKeyError? <==>
            && outputFilename in retrieved && dataFile in retrieved
            && var pickled := load(retrieved[dataFile]);
            && CoverageMapKey in pickled
            && (RateMapKey !in pickled || ProductionRateMapKey !in pickled))
      && (run.outcome.UncaughtKeyError? ==>
            && run.outcome.key == (if RateMapKey !in load(retrieved[dataFile]) then RateMapKey
                                   else ProductionRateMapKey)
            && run.emitted == [LogEmission(outputFilename, retrieved)])
  {
    MissingFiles(outputFilename, dataFile, retrieved, load, conv);
  }

  /**
   * The parse finishes normally exactly when both files are there and the
   * pickle holds all three maps; it then emits exactly the four declared
   * outputs, in declaration order, each map normalised.
   */
  lemma Success<L, N, F>(outputFilename: string, dataFile: string,
                         retrieved: map<string, seq<bv8>>,
                         load: seq<bv8> -> Pickle<L, N>, conv: N -> F)
    ensures var run := ParseRun(outputFilename, dataFile, retrieved, load, conv);
      && (run.outcome == Finished <==>
            && outputFilename in retrieved && dataFile in retrieved
            && var pickled := load(retrieved[dataFile]);
            && CoverageMapKey in pickled && RateMapKey in pickled && ProductionRateMapKey in pickled)
      && (run.outcome == Finished ==>
            && var pickled := load(retrieved[dataFile]);
            && |run.emitted| == 4
            && (forall k :: 0 <= k < 4 ==> run.emitted[k].link == OutputPorts[k])
            && run.emitted[0] == LogEmission(outputFilename, retrieved)
            && run.emitted[1].node == MapList(Normalise(pickled[CoverageMapKey], conv))
            && run.emitted[2].node == MapList(Normalise(pickled[RateMapKey], conv))
            && run.emitted[3].node == MapList(Normalise(pickled[ProductionRateMapKey], conv)))
  {
    MissingFiles(outputFilename, dataFile, retrieved, load, conv);
  }

  /**
   * Whatever the outcome, the log is the first output if anything is
   * emitted at all, and a map is emitted only by a parse that finishes
   * normally.
   */
  lemma LogFirstMapsLast<L, N, F>(outputFilename: string, dataFile: string,
                                  retrieved: map<string, seq<bv8>>,
                                  load: seq<bv8> -> Pickle<L, N>, conv: N -> F)
    ensures var run := ParseRun(outputFilename, dataFile, retrieved, load, conv);
      && (|run.emitted| > 0 ==> outputFilename in retrieved && run.emitted[0] == LogEmission(outputFilename, retrieved))
      && (|run.emitted| > 0 <==> run.outcome != Failed(ERROR_MISSING_OUTPUT_FILES))
      && ((exists k :: 0 <= k < |run.emitted| && run.emitted[k].node.MapList?) <==> run.outcome == Finished)
  {
    var run := ParseRun(outputFilename, dataFile, retrieved, load, conv);
    MissingFiles(outputFilename, dataFile, retrieved, load, conv);
    if run.outcome == Finished {
      assert run.emitted[1].node.MapList?;
    }
  }

  /**
   * The folder the calculation asks to retrieve is what its parser
   * expects: for the retrieve list `PrepareForSubmission` returns, when
   * every listed file arrives, the parse does not fail for missing files.
   */
  lemma RetrieveListSatisfiesParser<L, N, F>(p: Parameters, info: CalcInfo,
                                             retrieved: map<string, seq<bv8>>,
                                             load: seq<bv8> -> Pickle<L, N>, conv: N -> F)
    requires info.retrieveList == [p.outputFilename, p.dataFile]
    requires forall k :: 0 <= k < |info.retrieveList| ==> info.retrieveList[k] in retrieved
    ensures ParseRun(p.outputFilename, p.dataFile, retrieved, load, conv).outcome
         != Failed(ERROR_MISSING_OUTPUT_FILES)
  {
    assert info.retrieveList[0] == p.outputFilename && info.retrieveList[1] == p.dataFile;
    MissingFiles(p.outputFilename, p.dataFile, retrieved, load, conv);
  }
}
