/**
 * surface_reconstruction/pymeshlab_surface.py: the pymeshlab strategy. Every
 * stage of the shared table is a pymeshlab filter applied to the mesh set,
 * unless a filter script was given, which then replaces the whole pass. The
 * mesh set's operations are events in the strategy's log, and the mesh the
 * set hands back is named by the log up to that point.
 */
module PyMeshlab {
  import opened Values
  import opened Library
  import opened Parameters
  import opened Strategy
  import Open3d

  const SimplificationStage := "point_cloud_simplification"
  const NormalsStage := "compute_normals_for_point_sets"
  const PoissonStage := "surface_reconstruction_screened_poisson"

  /** The items of the simplification stage. */
  const SimplificationItems: seq<ItemSpec> := [
    ("samplenum", "Number of samples", Int(1000)),
    ("radius", "Explicit Radius", Int(0)),
    ("bestsampleflag", "Best Sample Heuristic", Bool(true)),
    ("bestsamplepool", "Best Sample Pool Size", Bool(true)),
    ("exactnumflag", "Exact number of samples", Int(10))]

  /** The items of the normals stage. */
  const NormalsItems: seq<ItemSpec> := [
    ("k", "Neighbour num", Int(5)),
    ("smoothiter", "Smooth Iteration", Int(0)),
    ("flipflag", "Flip normals w.r.t. viewpoint", Bool(false)),
    ("viewpos", "Viewpoint Pos", List([Int(0), Int(0), Int(0)]))]

  /** The items of the screened Poisson stage. */
  const PoissonItems: seq<ItemSpec> := [
    ("depth", "Reconstruction Depth", Int(8)),
    ("cgdepth", "Conjugate Gradients Depth", Int(0)),
    ("fulldepth", "Adaptive Octree Depth", Int(5)),
    ("visiblelayer", "Merge all visible layers", Bool(false)),
    ("scale", "Scale Factor", Float(1.1)),
    ("samplespernode", "Minimum Number of Samples", Float(1.5)),
    ("pointweight", "Interpolation Weight", Int(4)),
    ("iters", "Gauss-Seidel Relaxations", Int(8)),
    ("confidence", "Confidence Flag", Bool(false)),
    ("preclean", "Pre-Clean", Bool(false))]

  /** `PyMeshlabSurface.parameters`. */
  const PyMeshlabParameters: Schema := [
    (SimplificationStage, List(ItemList(SimplificationItems))),
    (NormalsStage, List(ItemList(NormalsItems))),
    (PoissonStage, List(ItemList(PoissonItems)))
  ]

  /** The strategy's fields that the stage callback reads and writes. */
  datatype State = State(appliedFilters: bool, events: seq<Event>)

  /** `apply_filter(name, params_key_values)`: apply the pymeshlab filter of that name, with the stage's map as arguments. */
  function MeshlabApply(s: State, name: string, args: Stage): (r: Result<State>)
    ensures r == Success(State(true, s.events + [ApplyFilter(name, args)]))
  {
    Success(s.(appliedFilters := true, events := s.events + [ApplyFilter(name, args)]))
  }

  /** The filters applied for a sequence of callbacks, in order. */
  function Filters(calls: seq<StageCall>): (events: seq<Event>)
    ensures |events| == |calls|
  {
    if calls == [] then [] else [ApplyFilter(calls[0].name, calls[0].args)] + Filters(calls[1..])
  }

  /** Filter `k` of the log is the one of callback `k`. */
  lemma {:induction false} FiltersAt(calls: seq<StageCall>, k: nat)
    requires k < |calls|
    ensures Filters(calls)[k] == ApplyFilter(calls[k].name, calls[k].args)
    decreases k
  {
    if k > 0 {
      FiltersAt(calls[1..], k - 1);
    }
  }

  /** The pymeshlab callback never raises: pymeshlab's own errors are not part of this model. */
  lemma MeshlabApplyNeverFails()
    ensures NeverFails(MeshlabApply)
  {
  }

  /** The callbacks `cs` in turn apply one filter each, in order, and set the flag if there is at least one. */
  lemma {:induction false} ChainFilters(s: State, cs: seq<StageCall>)
    ensures Chain(s, cs, MeshlabApply) == Success(State(s.appliedFilters || cs != [], s.events + Filters(cs)))
    decreases |cs|
  {
    if cs != [] {
      var s' := State(true, s.events + [ApplyFilter(cs[0].name, cs[0].args)]);
      assert MeshlabApply(s, cs[0].name, cs[0].args) == Success(s');
      assert Chain(s, cs, MeshlabApply) == Chain(s', cs[1..], MeshlabApply);
      ChainFilters(s', cs[1..]);
      assert Filters(cs) == [ApplyFilter(cs[0].name, cs[0].args)] + Filters(cs[1..]);
      assert s'.events + Filters(cs[1..]) == s.events + Filters(cs);
    } else {
      assert s.events + Filters(cs) == s.events;
    }
  }

  /**
   * The whole pass with the pymeshlab callback: the log gains exactly one
   * `apply_filter` per callback, in table order, and `applied_filters` ends
   * true exactly when it was already true or some stage was applied.
   */
  lemma FilterPassFilters(t: Table, params: map<string, Value>, s: State)
    ensures var run := FilterPass(t, params, s, MeshlabApply);
      && run.state.events == s.events + Filters(run.calls)
      && run.state.appliedFilters == (s.appliedFilters || run.calls != [])
  {
    MeshlabApplyNeverFails();
    PassFromState(t, params, 0, s, [], MeshlabApply);
    var run := FilterPass(t, params, s, MeshlabApply);
    assert run.calls[0..] == run.calls;
    ChainFilters(s, run.calls);
  }

  /** The log entries `load_file` adds: the mesh, then the filter script if there is one. */
  function LoadEvents(filterScript: string, path: string): (events: seq<Event>)
    ensures |events| == if filterScript == "" then 1 else 2
    ensures events[0] == LoadNewMesh(path)
    ensures filterScript != "" ==> events[1] == LoadFilterScript(filterScript)
  {
    [LoadNewMesh(path)] + if |filterScript| > 0 then [LoadFilterScript(filterScript)] else []
  }

  /**
   * The error, the log and the point cloud after the rest of `__init__`,
   * given the log and the point cloud before and the outcome of the
   * conversion. As for every strategy, the base always cleans up.
   */
  function Started(events: seq<Event>, pointCloud: MeshlabMesh, conversion: Option<Error>, filterScript: string,
                   outputFile: string, pointCloudFile: string, existing: set<string>): (Option<Error>, seq<Event>, MeshlabMesh)
  {
    if conversion.Some? then (conversion, events, pointCloud)
    else
      var cleaned := events + if RemovesOutput(Bool(true), outputFile, existing) then [RemoveFile(outputFile)] else [];
      match LoadDecision(pointCloudFile, AfterCleanUp(Bool(true), outputFile, existing))
      case Failure(e) => (Some(e), cleaned, pointCloud)
      case Success(load) =>
        if load then
          var loaded := cleaned + LoadEvents(filterScript, pointCloudFile);
          (None, loaded, CurrentMesh(loaded))
        else (None, cleaned, pointCloud)
  }

  /** After a successful start that found the point cloud, the point cloud is the mesh set's mesh after loading it. */
  lemma StartedLoads(events: seq<Event>, pointCloud: MeshlabMesh, filterScript: string, outputFile: string,
                     pointCloudFile: string, existing: set<string>)
    requires pointCloudFile != "" && pointCloudFile in existing && pointCloudFile != outputFile
    ensures var (err, events', pointCloud') := Started(events, pointCloud, None, filterScript, outputFile, pointCloudFile, existing);
      && err == None && pointCloud' == CurrentMesh(events')
      && events'[|events'| - |LoadEvents(filterScript, pointCloudFile)|..] == LoadEvents(filterScript, pointCloudFile)
  {
  }

  // ---------------------------------------------------------------------------
  // The default stages
  // ---------------------------------------------------------------------------

  const DefaultSimplification: Stage := Defaults(SimplificationItems)
  const DefaultNormals: Stage := Defaults(NormalsItems)
  const DefaultPoisson: Stage := Defaults(PoissonItems)

  /** The table the default schema converts to, in an empty table. */
  const DefaultTable: Table :=
    [(SimplificationStage, DefaultSimplification), (NormalsStage, DefaultNormals), (PoissonStage, DefaultPoisson)]

  /** Converting the schema of the pymeshlab strategy applies its three stages, in schema order, to any table. */
  lemma ConvertedDefault(t: Table)
    requires UniqueNames(t)
    ensures Converted(t, PyMeshlabParameters)
              == Conversion(Assign(Assign(Assign(t, SimplificationStage, DefaultSimplification), NormalsStage, DefaultNormals),
                                   PoissonStage, DefaultPoisson), None)
  {
    var t1 := Assign(t, SimplificationStage, DefaultSimplification);
    var t2 := Assign(t1, NormalsStage, DefaultNormals);
    var poisson := [(PoissonStage, List(ItemList(PoissonItems)))];
    var normals := [(NormalsStage, List(ItemList(NormalsItems)))] + poisson;
    assert PyMeshlabParameters == [(SimplificationStage, List(ItemList(SimplificationItems)))] + normals;
    ConvertedItemList(t, SimplificationStage, SimplificationItems, normals);
    ConvertedItemList(t1, NormalsStage, NormalsItems, poisson);
    assert poisson == poisson + [];
    ConvertedItemList(t2, PoissonStage, PoissonItems, []);
  }

  /** Alone, the pymeshlab strategy's schema converts to its three default stages. */
  lemma DefaultSchemaConverts()
    ensures Converted([], PyMeshlabParameters) == Conversion(DefaultTable, None)
  {
    ConvertedDefault([]);
    AssignThree([], SimplificationStage, DefaultSimplification, NormalsStage, DefaultNormals, PoissonStage, DefaultPoisson, 0);
    assert [] + DefaultTable == DefaultTable;
  }

  /**
   * The table is shared: once an open3d strategy has converted its schema,
   * a pymeshlab strategy adds its two own stages after the three open3d ones
   * and overwrites the Poisson stage, which both schemas name, in place. Its
   * passes then run the open3d normal stages as pymeshlab filters as well.
   */
  lemma SharedTableAfterOpen3d()
    ensures Open3d.DefaultTable[2].0 == PoissonStage
    ensures Converted(Open3d.DefaultTable, PyMeshlabParameters) == Conversion(
              (Open3d.DefaultTable + [(SimplificationStage, DefaultSimplification), (NormalsStage, DefaultNormals)])
                [2 := (PoissonStage, DefaultPoisson)],
              None)
  {
    var t := Open3d.DefaultTable;
    assert t[0].0 != t[1].0 && t[0].0 != t[2].0 && t[1].0 != t[2].0;
    ConvertedDefault(t);
    AssignThree(t, SimplificationStage, DefaultSimplification, NormalsStage, DefaultNormals, PoissonStage, DefaultPoisson, 2);
  }

  /** The pymeshlab strategy object. */
  class PyMeshlabSurface {
    const base: SurfaceStrategy
    /** `self.__filter_script_file`, the strategy's own copy of the script path. */
    const filterScript: string
    var pointCloud: MeshlabMesh
    var mesh: MeshlabMesh

    predicate Valid()
      reads this, base, base.table
    {
      base.table.Valid() && base.parameters == PyMeshlabParameters
    }

    /** The fields the stage callback works on. */
    function Snapshot(): State
      reads base
    {
      State(base.appliedFilters, base.events)
    }

    /**
     * The head of `__init__(point_cloud_file, output_file, filter_script_file,
     * clean_up)`: a new mesh set and meshes, the script path kept privately,
     * then the base initialisation, which again receives `clean_up` as its
     * `filter_script_file`.
     */
    constructor (table: ParameterTable, outputFile: string, filterScript: string, cleanUp: Value)
      requires table.Valid()
      ensures Valid() && fresh(base) && base.table == table && this.filterScript == filterScript
      ensures base.outputFile == outputFile && base.filterScriptFile == cleanUp
      ensures !base.normalsEstimated && Snapshot() == State(false, [])
      ensures pointCloud == NewMeshlabMesh && mesh == NewMeshlabMesh
    {
      pointCloud := NewMeshlabMesh;
      mesh := NewMeshlabMesh;
      this.filterScript := filterScript;
      base := new SurfaceStrategy(table, PyMeshlabParameters, outputFile, cleanUp);
    }

    /** The rest of `__init__`; the base's own `clean_up` keeps its default `True`. */
    method Init(pointCloudFile: string, existing: set<string>) returns (err: Option<Error>)
      requires Valid()
      modifies this, base, base.table
      ensures Valid() && mesh == old(mesh)
      ensures base.outputFile == old(base.outputFile) && base.filterScriptFile == old(base.filterScriptFile)
      ensures base.normalsEstimated == old(base.normalsEstimated) && base.appliedFilters == old(base.appliedFilters)
      ensures var c := Converted(old(base.table.entries), base.parameters);
        && base.table.entries == c.table
        && (err, base.events, pointCloud)
             == Started(old(base.events), old(pointCloud), c.error, filterScript, base.outputFile, pointCloudFile, existing)
    {
      var r := base.Init(pointCloudFile, Bool(true), existing);
      if r.Failure? {
        return Some(r.error);
      }
      if r.value {
        var _ := LoadFile(pointCloudFile);
      }
      return None;
    }

    /** `load_file(file_path)`: load the mesh and, if there is one, the filter script; keep the mesh as the point cloud. */
    method LoadFile(filePath: string) returns (loaded: MeshlabMesh)
      modifies this, base
      ensures base.events == old(base.events) + LoadEvents(filterScript, filePath)
      ensures loaded == CurrentMesh(base.events) && pointCloud == loaded && mesh == old(mesh)
      ensures unchanged(base`outputFile, base`filterScriptFile, base`normalsEstimated, base`appliedFilters)
    {
      base.events := base.events + [LoadNewMesh(filePath)];
      if |filterScript| > 0 {
        base.events := base.events + [LoadFilterScript(filterScript)];
      }
      pointCloud := CurrentMesh(base.events);
      loaded := CurrentMesh(base.events);
    }

    /**
     * `poisson_mesh(save_file, **params)`: with a filter script, apply the
     * script; otherwise run the stages through `apply_filter`. Then
     * optionally save the mesh and return the mesh set's current mesh.
     */
    method PoissonMesh(saveFile: bool, params: map<string, Value>) returns (r: Result<MeshlabMesh>)
      requires Valid() && "save_file" !in params && "self" !in params
      modifies this, base, base.table
      ensures Valid() && pointCloud == old(pointCloud) && mesh == old(mesh)
      ensures unchanged(base`outputFile, base`filterScriptFile, base`normalsEstimated)
      ensures var saved := if saveFile then [SaveCurrentMesh(OutputTarget(params, base.outputFile))] else [];
        if filterScript != "" then
          && base.table.entries == old(base.table.entries)
          && Snapshot() == State(true, old(base.events) + [ApplyFilterScript] + saved)
          && r == Success(CurrentMesh(base.events))
        else if "callback" in params then
          && base.table.entries == old(base.table.entries)
          && Snapshot() == State(false, old(base.events))
          && r == Failure(TypeError(MultipleValues("callback")))
        else
          var run := FilterPass(old(base.table.entries), params, State(false, old(base.events)), MeshlabApply);
          && base.table.entries == run.table
          && (run.error.Some? ==> r == Failure(run.error.value) && Snapshot() == run.state)
          && (run.error.None? ==>
                && Snapshot() == run.state.(events := run.state.events + saved)
                && r == Success(CurrentMesh(base.events)))
    {
      base.appliedFilters := false;
      if |filterScript| > 0 {
        base.events := base.events + [ApplyFilterScript];
        base.appliedFilters := true;
      } else {
        if "callback" in params {
          return Failure(TypeError(MultipleValues("callback")));
        }
        var st, calls, err := base.table.PoissonFilters(params, Snapshot(), MeshlabApply);
        base.appliedFilters, base.events := st.appliedFilters, st.events;
        if err.Some? {
          return Failure(err.value);
        }
      }
      if saveFile {
        var outputFile := OutputTarget(params, base.outputFile);
        base.events := base.events + [SaveCurrentMesh(outputFile)];
      }
      return Success(CurrentMesh(base.events));
    }
  }
}
