/**
 * surface_reconstruction/surface_strategy.py: the state every strategy holds
 * and the steps of its constructor. The file system is a parameter (the set
 * of paths that exist); removing the output file is an event in the log.
 */
module Strategy {
  import opened Values
  import opened Library
  import opened Parameters

  /** `clean_up and len(output_file) > 0 and os.path.exists(output_file)`. */
  predicate RemovesOutput(cleanUp: Value, outputFile: string, existing: set<string>) {
    Truthy(cleanUp) && |outputFile| > 0 && outputFile in existing
  }

  /**
   * The last step of `__init__`: with no point cloud file there is nothing to
   * load (`false`), an existing one is loaded (`true`), a missing one raises.
   */
  function LoadDecision(pointCloudFile: string, existing: set<string>): (r: Result<bool>)
    ensures r == Success(false) <==> pointCloudFile == ""
    ensures r == Success(true) <==> pointCloudFile != "" && pointCloudFile in existing
    ensures r.Failure? <==> pointCloudFile != "" && pointCloudFile !in existing
    ensures r.Failure? ==> r.error == FileNotFoundError(pointCloudFile)
  {
    if |pointCloudFile| > 0 then
      if pointCloudFile !in existing then Failure(FileNotFoundError(pointCloudFile)) else Success(true)
    else Success(false)
  }

  /** The paths that exist once the clean-up step has run. */
  function AfterCleanUp(cleanUp: Value, outputFile: string, existing: set<string>): (remaining: set<string>)
    ensures remaining <= existing
    ensures outputFile in remaining <==> outputFile in existing && !RemovesOutput(cleanUp, outputFile, existing)
    ensures forall p | p != outputFile :: p in remaining <==> p in existing
  {
    if RemovesOutput(cleanUp, outputFile, existing) then existing - {outputFile} else existing
  }

  /**
   * Clean-up runs before the point cloud is looked for: naming the same
   * existing file as output and as point cloud, with clean-up on, deletes
   * that file and then raises FileNotFoundError for it.
   */
  lemma CleanUpThenMissing(cleanUp: Value, file: string, existing: set<string>)
    requires Truthy(cleanUp) && file != "" && file in existing
    ensures LoadDecision(file, AfterCleanUp(cleanUp, file, existing)) == Failure(FileNotFoundError(file))
  {
  }

  /** With clean-up off, or another output file, the point cloud is found exactly when it exists. */
  lemma CleanUpSparesOtherFiles(cleanUp: Value, outputFile: string, pointCloudFile: string, existing: set<string>)
    requires !Truthy(cleanUp) || outputFile != pointCloudFile
    ensures LoadDecision(pointCloudFile, AfterCleanUp(cleanUp, outputFile, existing)) == LoadDecision(pointCloudFile, existing)
  {
  }

  /**
   * The point cloud is loaded exactly when its path is non-empty, exists, and
   * was not just removed as the output file; an empty path loads nothing.
   */
  lemma LoadedAfterCleanUp(cleanUp: Value, outputFile: string, pointCloudFile: string, existing: set<string>)
    ensures LoadDecision(pointCloudFile, AfterCleanUp(cleanUp, outputFile, existing)) == Success(true) <==>
              && pointCloudFile != "" && pointCloudFile in existing
              && !(pointCloudFile == outputFile && RemovesOutput(cleanUp, outputFile, existing))
    ensures LoadDecision(pointCloudFile, AfterCleanUp(cleanUp, outputFile, existing)) == Success(false) <==> pointCloudFile == ""
  {
  }

  /** The path `poisson_mesh` saves to: `params['output_file']` if given, else the strategy's `output_file`. */
  function OutputTarget(params: map<string, Value>, outputFile: string): (target: Value)
    ensures "output_file" in params ==> target == params["output_file"]
    ensures "output_file" !in params ==> target == Str(outputFile)
  {
    if "output_file" in params then params["output_file"] else Str(outputFile)
  }

  /** The part of a strategy object that `SurfaceStrategy.__init__` sets up. */
  class SurfaceStrategy {
    /** `_parameters_key_values`, shared by every strategy. */
    const table: ParameterTable
    /** The class attribute `parameters` of the concrete strategy class. */
    const parameters: Schema
    var outputFile: string
    /** Whatever the subclass passed in third position; see the subclasses. */
    var filterScriptFile: Value
    var normalsEstimated: bool
    var appliedFilters: bool
    /** Everything the strategy has done outside itself, in order: file removals and library calls. */
    var events: seq<Event>

    /** The assignments at the head of `__init__`. */
    constructor (table: ParameterTable, parameters: Schema, outputFile: string, filterScriptFile: Value)
      ensures this.table == table && this.parameters == parameters
      ensures this.outputFile == outputFile && this.filterScriptFile == filterScriptFile
      ensures !normalsEstimated && !appliedFilters && events == []
    {
      this.table := table;
      this.parameters := parameters;
      this.outputFile := outputFile;
      this.filterScriptFile := filterScriptFile;
      normalsEstimated := false;
      appliedFilters := false;
      events := [];
    }

    /** `default_parameters(return_json=False)`: the class's schema as it is. */
    function DefaultParameters(): Schema
    {
      parameters
    }

    /**
     * The rest of `__init__`: convert the class's schema into the shared
     * table, remove the output file if asked to, then check the point cloud
     * file. The result says whether `load_file` is to be called next.
     */
    method Init(pointCloudFile: string, cleanUp: Value, existing: set<string>) returns (r: Result<bool>)
      requires table.Valid()
      modifies this, table
      ensures table.Valid()
      ensures outputFile == old(outputFile) && filterScriptFile == old(filterScriptFile)
      ensures normalsEstimated == old(normalsEstimated) && appliedFilters == old(appliedFilters)
      ensures var c := Converted(old(table.entries), parameters);
        && table.entries == c.table
        && (c.error.Some? ==> r == Failure(c.error.value) && events == old(events))
        && (c.error.None? ==>
              && events == old(events) + (if RemovesOutput(cleanUp, outputFile, existing) then [RemoveFile(outputFile)] else [])
              && r == LoadDecision(pointCloudFile, AfterCleanUp(cleanUp, outputFile, existing)))
    {
      var err := table.Convert(parameters);
      if err.Some? {
        return Failure(err.value);
      }
      if RemovesOutput(cleanUp, outputFile, existing) {
        events := events + [RemoveFile(outputFile)];
      }
      r := LoadDecision(pointCloudFile, AfterCleanUp(cleanUp, outputFile, existing));
    }
  }
}
