/**
 * surface_reconstruction/open3d_surface.py: the open3d strategy. Its stages
 * are routed, one by one, to a method of the strategy itself, to a method of
 * the point cloud, or to the Poisson mesh construction; the open3d calls are
 * events in the strategy's log.
 */
module Open3d {
  import opened Values
  import opened Library
  import opened Parameters
  import opened Strategy

  const EstimateNormalsStage := "estimate_normals"
  const OrientNormalsStage := "orient_normals_consistent_tangent_plane"
  const PoissonStage := "surface_reconstruction_screened_poisson"

  /** `Open3dSurface.parameters`. */
  const Open3dParameters: Schema := [
    (EstimateNormalsStage, List([
      SchemaItem("fast_normal_computation", "Fast normal estimation", Bool(true)),
      SchemaItem("normals", "Points normals", Tuple([Int(1), Int(3)]))])),
    (OrientNormalsStage, List([
      SchemaItem("k", "Nearest neighbors", Int(100))])),
    (PoissonStage, List([
      SchemaItem("depth", "Maximum depth of the tree", Int(8)),
      SchemaItem("width", "Target width", Int(0)),
      SchemaItem("scale", "Ratio between the diameter of the cube", Float(1.1)),
      SchemaItem("linear_fit", "Use linear interpolation?", Bool(false)),
      SchemaItem("n_threads", "Number of threads used for reconstruction", Int(-1))]))
  ]

  /** The methods of an `Open3dSurface` object (its own and the ones it inherits). */
  const OwnMethods: set<string> := {
    "load_file", "estimate_normals", "poisson_mesh", "default_parameters",
    "poisson_filters", "_parameters_convertion"
  }

  /** The data attributes of an `Open3dSurface` object and its class. */
  const OwnFields: set<string> := {
    "point_cloud", "mesh", "output_file", "filter_script_file", "normals_estimated",
    "applied_filters", "parameters", "_parameters_key_values"
  }

  /** The methods of an open3d `PointCloud`. */
  const CloudMethods: set<string> := {
    "estimate_normals", "orient_normals_consistent_tangent_plane", "orient_normals_to_align_with_direction",
    "orient_normals_towards_camera_location", "normalize_normals", "paint_uniform_color",
    "voxel_down_sample", "uniform_down_sample", "random_down_sample", "remove_statistical_outlier",
    "remove_radius_outlier", "remove_non_finite_points", "compute_nearest_neighbor_distance",
    "compute_point_cloud_distance", "compute_convex_hull", "cluster_dbscan", "segment_plane",
    "has_points", "has_normals", "has_colors", "transform", "translate", "rotate", "scale", "crop"
  }

  /** The data attributes of an open3d `PointCloud`. */
  const CloudFields: set<string> := {"points", "normals", "colors", "covariances"}

  /**
   * `bool(self.point_cloud)`: a `PointCloud` defines neither `__bool__` nor
   * `__len__`, so every point cloud is true, empty or not.
   */
  predicate CloudTruthy(c: Cloud) {
    true
  }

  /** The strategy's fields that a stage callback reads and writes. */
  datatype State = State(normalsEstimated: bool, appliedFilters: bool, cloud: Cloud, mesh: Mesh, events: seq<Event>)

  /**
   * `estimate_normals(**params)`: reset the cloud's normals to zeros of shape
   * `params['normals']`, forward the other parameters to the point cloud's
   * own `estimate_normals`, and record that normals were estimated.
   */
  function EstimateNormals(s: State, params: Stage): (r: Result<State>)
    ensures r.Failure? <==> "normals" !in params
    ensures r.Failure? ==> r.error == KeyError("normals")
    ensures r.Success? ==>
      && r.value.normalsEstimated
      && r.value.appliedFilters == s.appliedFilters && r.value.cloud == s.cloud && r.value.mesh == s.mesh
      && |r.value.events| == |s.events| + 2 && r.value.events[..|s.events|] == s.events
      && r.value.events[|s.events|] == ResetNormals(params["normals"])
      && var forwarded := r.value.events[|s.events| + 1];
         && forwarded.CloudCall? && forwarded.methodName == "estimate_normals"
         && forwarded.args.Keys == params.Keys - {"normals"}
         && forall p | p in forwarded.args :: forwarded.args[p] == params[p]
  {
    if "normals" !in params then Failure(KeyError("normals"))
    else
      Success(s.(normalsEstimated := true,
                 events := s.events + [ResetNormals(params["normals"]), CloudCall("estimate_normals", params - {"normals"})]))
  }

  /**
   * A strategy method reached through a stage name, called with the stage's
   * map as keyword arguments. Only `estimate_normals` is modelled; any other
   * method is logged as called.
   */
  function CallOwn(s: State, name: string, args: Stage): Result<State>
  {
    if name == EstimateNormalsStage then EstimateNormals(s, args)
    else Success(s.(events := s.events + [OwnCall(name, args)]))
  }

  /** Where a stage goes before the Poisson check. */
  datatype Route = ToStrategy | ToCloud | Nowhere

  /** The first two branches of `apply_filter`: the strategy while normals are not estimated, else the cloud. */
  function RouteOf(s: State, name: string): Route
  {
    if !s.normalsEstimated && (name in OwnMethods || name in OwnFields) then ToStrategy
    else if CloudTruthy(s.cloud) && (name in CloudMethods || name in CloudFields) then ToCloud
    else Nowhere
  }

  /** `apply_filter(name, params_key_values)`, the callback `poisson_mesh` hands to `poisson_filters`. */
  function ApplyStage(s: State, name: string, args: Stage): Result<State>
  {
    var routed :-
      match RouteOf(s, name)
      case ToStrategy =>
        var s1 :- if name in OwnMethods then CallOwn(s, name, args) else Success(s);
        Success(s1.(appliedFilters := true))
      case ToCloud =>
        var s1 := if name in CloudMethods then s.(events := s.events + [CloudCall(name, args)]) else s;
        Success(s1.(appliedFilters := true))
      case Nowhere => Success(s);
    if name == PoissonStage then
      Success(routed.(mesh := PoissonMesh(routed.cloud, args), appliedFilters := true,
                      events := routed.events + [CreatePoissonMesh(routed.cloud, args)]))
    else Success(routed)
  }

  // ---------------------------------------------------------------------------
  // What a stage callback does
  // ---------------------------------------------------------------------------

  /**
   * While normals are not estimated, a stage named after one of the
   * strategy's methods goes to that method: `estimate_normals` runs, any
   * other one is called, and the point cloud is not touched.
   */
  lemma StrategyMethodFirst(s: State, name: string, args: Stage)
    requires !s.normalsEstimated && name in OwnMethods
    ensures name == EstimateNormalsStage && "normals" in args ==>
              ApplyStage(s, name, args) == Success(EstimateNormals(s, args).value.(appliedFilters := true))
    ensures name == EstimateNormalsStage && "normals" !in args ==> ApplyStage(s, name, args) == Failure(KeyError("normals"))
    ensures name != EstimateNormalsStage ==>
              ApplyStage(s, name, args) == Success(s.(appliedFilters := true, events := s.events + [OwnCall(name, args)]))
  {
    assert name != PoissonStage;
  }

  /**
   * Once normals are estimated, a stage named after a point-cloud method goes
   * to the point cloud, even one the strategy also has (`estimate_normals`,
   * which is then given its `normals` parameter too).
   */
  lemma CloudMethodAfterNormals(s: State, name: string, args: Stage)
    requires s.normalsEstimated && name in CloudMethods
    ensures ApplyStage(s, name, args) == Success(s.(appliedFilters := true, events := s.events + [CloudCall(name, args)]))
  {
    assert name != PoissonStage;
  }

  /** A stage neither the strategy (while normals are not estimated) nor the point cloud knows is not applied, unless it is the Poisson stage. */
  lemma UnknownStageIgnored(s: State, name: string, args: Stage)
    requires RouteOf(s, name) == Nowhere && name != PoissonStage
    ensures ApplyStage(s, name, args) == Success(s)
  {
  }

  /**
   * The Poisson stage always replaces the mesh with one built from the
   * current cloud and that stage's map; no other stage touches the mesh or
   * the cloud.
   */
  lemma PoissonStageBuildsMesh(s: State, name: string, args: Stage)
    ensures var r := ApplyStage(s, name, args);
      r.Success? ==> r.value.cloud == s.cloud
    ensures var r := ApplyStage(s, name, args);
      r.Success? ==> r.value.mesh == if name == PoissonStage then PoissonMesh(s.cloud, args) else s.mesh
    ensures name == PoissonStage ==> ApplyStage(s, name, args).Success?
  {
    assert PoissonStage !in OwnMethods && PoissonStage !in OwnFields;
    assert PoissonStage !in CloudMethods && PoissonStage !in CloudFields;
  }

  /** `applied_filters` is set exactly when the stage is routed somewhere or builds the mesh, and is never cleared. */
  lemma AppliedWhenRouted(s: State, name: string, args: Stage)
    ensures var r := ApplyStage(s, name, args);
      r.Success? ==> r.value.appliedFilters == (s.appliedFilters || RouteOf(s, name) != Nowhere || name == PoissonStage)
  {
  }

  /** A stage callback only raises when `estimate_normals` runs without a `normals` parameter. */
  lemma ApplyStageFails(s: State, name: string, args: Stage)
    ensures ApplyStage(s, name, args).Failure? <==>
              RouteOf(s, name) == ToStrategy && name == EstimateNormalsStage && "normals" !in args
  {
    assert PoissonStage !in OwnMethods && PoissonStage !in OwnFields;
  }

  /**
   * The error and the fields after the rest of `__init__`, given the
   * fields before and the outcome of the conversion. The base always cleans
   * up, because the base's own `clean_up` keeps its default `True`.
   */
  function Started(s: State, conversion: Option<Error>, outputFile: string, pointCloudFile: string,
                   existing: set<string>): (Option<Error>, State)
  {
    if conversion.Some? then (conversion, s)
    else
      var cleaned := s.(events := s.events + if RemovesOutput(Bool(true), outputFile, existing) then [RemoveFile(outputFile)] else []);
      match LoadDecision(pointCloudFile, AfterCleanUp(Bool(true), outputFile, existing))
      case Failure(e) => (Some(e), cleaned)
      case Success(load) =>
        if load then (None, cleaned.(cloud := ReadCloud(pointCloudFile), events := cleaned.events + [ReadPointCloud(pointCloudFile)]))
        else (None, cleaned)
  }

  // ---------------------------------------------------------------------------
  // The default stages
  // ---------------------------------------------------------------------------

  const DefaultNormals: Stage := map["fast_normal_computation" := Bool(true), "normals" := Tuple([Int(1), Int(3)])]
  const DefaultOrient: Stage := map["k" := Int(100)]
  const DefaultPoisson: Stage :=
    map["depth" := Int(8), "width" := Int(0), "scale" := Float(1.1), "linear_fit" := Bool(false), "n_threads" := Int(-1)]

  /** The table the default schema converts to. */
  const DefaultTable: Table := [(EstimateNormalsStage, DefaultNormals), (OrientNormalsStage, DefaultOrient), (PoissonStage, DefaultPoisson)]

  /** The items under `estimate_normals` convert to the default normals stage. */
  lemma DefaultNormalsConverts()
    ensures EntryToStage(Open3dParameters[0].1) == Success(Some(DefaultNormals))
  {
    var normals := Open3dParameters[0].1.items;
    ItemsToStageSnoc([], "fast_normal_computation", "Fast normal estimation", Bool(true));
    ItemsToStageSnoc(normals[..1], "normals", "Points normals", Tuple([Int(1), Int(3)]));
    assert normals[..1] + [normals[1]] == normals;
  }

  /** The item under `orient_normals_consistent_tangent_plane` converts to the default orientation stage. */
  lemma DefaultOrientConverts()
    ensures EntryToStage(Open3dParameters[1].1) == Success(Some(DefaultOrient))
  {
    var orient := Open3dParameters[1].1.items;
    ItemsToStageSnoc([], "k", "Nearest neighbors", Int(100));
    assert [] + [orient[0]] == orient;
  }

  /** The items under the Poisson stage convert to the default Poisson stage. */
  lemma DefaultPoissonConverts()
    ensures EntryToStage(Open3dParameters[2].1) == Success(Some(DefaultPoisson))
  {
    var poisson := Open3dParameters[2].1.items;
    ItemsToStageSnoc([], "depth", "Maximum depth of the tree", Int(8));
    assert [] + [poisson[0]] == poisson[..1];
    ItemsToStageSnoc(poisson[..1], "width", "Target width", Int(0));
    assert poisson[..1] + [poisson[1]] == poisson[..2];
    ItemsToStageSnoc(poisson[..2], "scale", "Ratio between the diameter of the cube", Float(1.1));
    assert poisson[..2] + [poisson[2]] == poisson[..3];
    ItemsToStageSnoc(poisson[..3], "linear_fit", "Use linear interpolation?", Bool(false));
    assert poisson[..3] + [poisson[3]] == poisson[..4];
    ItemsToStageSnoc(poisson[..4], "n_threads", "Number of threads used for reconstruction", Int(-1));
    assert poisson[..4] + [poisson[4]] == poisson;
  }

  /** Assigning the three default stages in turn to an empty table appends each. */
  lemma DefaultTableAssigned()
    ensures Assign(Assign(Assign([], EstimateNormalsStage, DefaultNormals), OrientNormalsStage, DefaultOrient), PoissonStage, DefaultPoisson)
              == DefaultTable
  {
    var t1 := Assign([], EstimateNormalsStage, DefaultNormals);
    var t2 := Assign(t1, OrientNormalsStage, DefaultOrient);
    assert Find(t1, OrientNormalsStage) == None;
    assert Find(t2, PoissonStage) == None;
  }

  /** Converting the default schema into an empty table gives the three default stages, in schema order. */
  lemma DefaultSchemaConverts()
    ensures Converted([], Open3dParameters) == Conversion(DefaultTable, None)
  {
    DefaultNormalsConverts();
    DefaultOrientConverts();
    DefaultPoissonConverts();
    DefaultTableAssigned();
    var t1 := Assign([], EstimateNormalsStage, DefaultNormals);
    var t2 := Assign(t1, OrientNormalsStage, DefaultOrient);
    var t3 := Assign(t2, PoissonStage, DefaultPoisson);
    assert Open3dParameters[1..][1..] == Open3dParameters[2..];
    assert Open3dParameters[2..][1..] == [];
    assert Converted(t3, []) == Conversion(DefaultTable, None);
    assert Converted(t2, Open3dParameters[2..]) == Conversion(DefaultTable, None);
    assert Converted(t1, Open3dParameters[1..]) == Conversion(DefaultTable, None);
  }

  /** The calls a pass over the default stages without overrides makes. */
  const DefaultCalls: seq<StageCall> :=
    [StageCall(EstimateNormalsStage, DefaultNormals), StageCall(OrientNormalsStage, DefaultOrient),
     StageCall(PoissonStage, DefaultPoisson)]

  /** Every default stage is non-empty, so each is called back. */
  lemma DefaultStagesCalled()
    ensures NonEmptyStages(DefaultTable) == DefaultCalls
  {
    var t := DefaultTable;
    assert "normals" in t[0].1 && "k" in t[1].1 && "depth" in t[2].1;
    assert t[1..][1..][1..] == [];
    assert NonEmptyStages(t[1..][1..]) == [DefaultCalls[2]];
    assert NonEmptyStages(t[1..]) == [DefaultCalls[1], DefaultCalls[2]];
  }

  /** The fields after the first pass over the default stages. */
  function FirstRunState(s: State): State
  {
    State(true, true, s.cloud, PoissonMesh(s.cloud, DefaultPoisson),
          s.events + [ResetNormals(Tuple([Int(1), Int(3)])),
                      CloudCall(EstimateNormalsStage, map["fast_normal_computation" := Bool(true)]),
                      CloudCall(OrientNormalsStage, DefaultOrient),
                      CreatePoissonMesh(s.cloud, DefaultPoisson)])
  }

  /** The fields after a later pass over the default stages. */
  function LaterRunState(s: State): State
  {
    State(true, true, s.cloud, PoissonMesh(s.cloud, DefaultPoisson),
          s.events + [CloudCall(EstimateNormalsStage, DefaultNormals),
                      CloudCall(OrientNormalsStage, DefaultOrient),
                      CreatePoissonMesh(s.cloud, DefaultPoisson)])
  }

  /** The chain of the three default calls, step by step. */
  lemma DefaultChain(s: State, s1: State, s2: State, s3: State)
    requires ApplyStage(s, EstimateNormalsStage, DefaultNormals) == Success(s1)
    requires ApplyStage(s1, OrientNormalsStage, DefaultOrient) == Success(s2)
    requires ApplyStage(s2, PoissonStage, DefaultPoisson) == Success(s3)
    ensures Chain(s, DefaultCalls, ApplyStage) == Success(s3)
  {
    var c1, c2, c3 := DefaultCalls[0], DefaultCalls[1], DefaultCalls[2];
    ChainCons(s2, c3, [], ApplyStage);
    assert [c3] + [] == [c3];
    ChainCons(s1, c2, [c3], ApplyStage);
    ChainCons(s, c1, [c2] + [c3], ApplyStage);
    assert [c1] + ([c2] + [c3]) == DefaultCalls;
  }

  /** The default Poisson stage goes nowhere but the mesh construction. */
  lemma DefaultPoissonStage(s: State)
    requires s.normalsEstimated && s.appliedFilters
    ensures ApplyStage(s, PoissonStage, DefaultPoisson)
              == Success(s.(mesh := PoissonMesh(s.cloud, DefaultPoisson), events := s.events + [CreatePoissonMesh(s.cloud, DefaultPoisson)]))
  {
    assert PoissonStage !in CloudMethods && PoissonStage !in CloudFields;
  }

  /**
   * The first `poisson_mesh()` on the default stages, without overrides:
   * `estimate_normals` goes to the strategy's method, which resets the
   * normals and estimates them on the cloud without `normals`; then the cloud
   * orients them; then the mesh is built.
   */
  lemma FirstDefaultRun(s: State)
    requires !s.normalsEstimated
    ensures FilterPass(DefaultTable, map[], s, ApplyStage) == Run(DefaultTable, FirstRunState(s), DefaultCalls, None)
  {
    assert DefaultNormals - {"normals"} == map["fast_normal_computation" := Bool(true)];
    assert EstimateNormalsStage in OwnMethods && EstimateNormalsStage != PoissonStage;
    var s1 := s.(normalsEstimated := true, appliedFilters := true,
                 events := s.events + [ResetNormals(Tuple([Int(1), Int(3)])),
                                       CloudCall(EstimateNormalsStage, map["fast_normal_computation" := Bool(true)])]);
    assert ApplyStage(s, EstimateNormalsStage, DefaultNormals) == Success(s1);
    CloudMethodAfterNormals(s1, OrientNormalsStage, DefaultOrient);
    var s2 := s1.(events := s1.events + [CloudCall(OrientNormalsStage, DefaultOrient)]);
    DefaultPoissonStage(s2);
    assert s2.events + [CreatePoissonMesh(s.cloud, DefaultPoisson)] == FirstRunState(s).events;
    DefaultChain(s, s1, s2, FirstRunState(s));
    DefaultStagesCalled();
    NoFiltersKeepsTable(DefaultTable, map[], s, ApplyStage);
  }

  /**
   * A later `poisson_mesh()` on the same object: normals are now estimated,
   * so the `estimate_normals` stage goes straight to the cloud, `normals`
   * parameter included.
   */
  lemma LaterDefaultRun(s: State)
    requires s.normalsEstimated
    ensures FilterPass(DefaultTable, map[], s, ApplyStage) == Run(DefaultTable, LaterRunState(s), DefaultCalls, None)
  {
    CloudMethodAfterNormals(s, EstimateNormalsStage, DefaultNormals);
    var s1 := s.(appliedFilters := true, events := s.events + [CloudCall(EstimateNormalsStage, DefaultNormals)]);
    CloudMethodAfterNormals(s1, OrientNormalsStage, DefaultOrient);
    var s2 := s1.(events := s1.events + [CloudCall(OrientNormalsStage, DefaultOrient)]);
    DefaultPoissonStage(s2);
    assert s2.events + [CreatePoissonMesh(s.cloud, DefaultPoisson)] == LaterRunState(s).events;
    DefaultChain(s, s1, s2, LaterRunState(s));
    DefaultStagesCalled();
    NoFiltersKeepsTable(DefaultTable, map[], s, ApplyStage);
  }

  /** The Open3D strategy object. */
  class Open3dSurface {
    const base: SurfaceStrategy
    var pointCloud: Cloud
    var mesh: Mesh

    predicate Valid()
      reads this, base, base.table
    {
      base.table.Valid() && base.parameters == Open3dParameters
    }

    /** The fields a stage callback works on. */
    function Snapshot(): State
      reads this, base
    {
      State(base.normalsEstimated, base.appliedFilters, pointCloud, mesh, base.events)
    }

    /**
     * The head of `__init__(point_cloud_file, output_file, clean_up)`: an empty
     * cloud and mesh, then the base initialisation. The base receives its
     * arguments by position, so its `filter_script_file` gets `clean_up`.
     */
    constructor (table: ParameterTable, outputFile: string, cleanUp: Value)
      requires table.Valid()
      ensures Valid() && fresh(base) && base.table == table
      ensures base.outputFile == outputFile && base.filterScriptFile == cleanUp
      ensures Snapshot() == State(false, false, EmptyCloud, EmptyMesh, [])
    {
      pointCloud := EmptyCloud;
      mesh := EmptyMesh;
      base := new SurfaceStrategy(table, Open3dParameters, outputFile, cleanUp);
    }

    /**
     * The rest of `__init__`. The base's own `clean_up` is never given and
     * keeps its default `True`, whatever `clean_up` the caller passed.
     */
    method Init(pointCloudFile: string, existing: set<string>) returns (err: Option<Error>)
      requires Valid()
      modifies this, base, base.table
      ensures Valid()
      ensures base.outputFile == old(base.outputFile) && base.filterScriptFile == old(base.filterScriptFile)
      ensures var c := Converted(old(base.table.entries), base.parameters);
        && base.table.entries == c.table
        && (err, Snapshot()) == Started(old(Snapshot()), c.error, base.outputFile, pointCloudFile, existing)
    {
      ghost var before := Snapshot();
      var r := base.Init(pointCloudFile, Bool(true), existing);
      ghost var conversion := Converted(old(base.table.entries), base.parameters).error;
      ghost var outcome := Started(before, conversion, base.outputFile, pointCloudFile, existing);
      if r.Failure? {
        assert outcome == (Some(r.error), Snapshot());
        return Some(r.error);
      }
      if r.value {
        ghost var cleaned := Snapshot();
        var _ := LoadFile(pointCloudFile);
        assert outcome == (None, cleaned.(cloud := ReadCloud(pointCloudFile), events := cleaned.events + [ReadPointCloud(pointCloudFile)]));
      }
      return None;
    }

    /** `load_file(file_path)`: read the point cloud. */
    method LoadFile(filePath: string) returns (cloud: Cloud)
      modifies this, base
      ensures cloud == ReadCloud(filePath)
      ensures Snapshot() == old(Snapshot()).(cloud := cloud, events := old(base.events) + [ReadPointCloud(filePath)])
      ensures unchanged(base`outputFile, base`filterScriptFile)
    {
      pointCloud := ReadCloud(filePath);
      base.events := base.events + [ReadPointCloud(filePath)];
      cloud := pointCloud;
    }

    method Restore(s: State)
      modifies this, base
      ensures Snapshot() == s
      ensures unchanged(base`outputFile, base`filterScriptFile)
    {
      base.normalsEstimated, base.appliedFilters, pointCloud, mesh, base.events :=
        s.normalsEstimated, s.appliedFilters, s.cloud, s.mesh, s.events;
    }

    /** `estimate_normals(**params)` called directly. */
    method EstimateNormalsCall(params: Stage) returns (err: Option<Error>)
      modifies this, base
      ensures match EstimateNormals(old(Snapshot()), params)
        case Failure(e) => err == Some(e) && Snapshot() == old(Snapshot())
        case Success(s) => err == None && Snapshot() == s
      ensures unchanged(base`outputFile, base`filterScriptFile)
    {
      var r := EstimateNormals(Snapshot(), params);
      if r.Failure? {
        return Some(r.error);
      }
      Restore(r.value);
      return None;
    }

    /**
     * `poisson_mesh(save_file, **params)`: run the stages through
     * `apply_filter`, then optionally write the mesh. The result is the mesh,
     * or `None` when a write was attempted and failed; `writeSucceeds` is
     * what `write_triangle_mesh` returns.
     */
    method PoissonMesh(saveFile: bool, params: map<string, Value>, writeSucceeds: bool) returns (r: Result<Option<Mesh>>)
      requires Valid() && "save_file" !in params && "self" !in params
      modifies this, base, base.table
      ensures Valid()
      ensures "callback" in params ==>
        r == Failure(TypeError(MultipleValues("callback"))) && Snapshot() == old(Snapshot())
        && base.table.entries == old(base.table.entries)
      ensures "callback" !in params ==>
        var run := FilterPass(old(base.table.entries), params, old(Snapshot()), ApplyStage);
        && base.table.entries == run.table
        && (run.error.Some? ==> r == Failure(run.error.value) && Snapshot() == run.state)
        && (run.error.None? && !saveFile ==> r == Success(Some(run.state.mesh)) && Snapshot() == run.state)
        && (run.error.None? && saveFile ==>
              && Snapshot() == run.state.(events := run.state.events + [WriteTriangleMesh(OutputTarget(params, old(base.outputFile)), run.state.mesh)])
              && r == if writeSucceeds then Success(Some(run.state.mesh)) else Success(None))
    {
      if "callback" in params {
        return Failure(TypeError(MultipleValues("callback")));
      }
      var st, calls, err := base.table.PoissonFilters(params, Snapshot(), ApplyStage);
      Restore(st);
      if err.Some? {
        return Failure(err.value);
      }
      if saveFile {
        var outputFile := OutputTarget(params, base.outputFile);
        base.events := base.events + [WriteTriangleMesh(outputFile, mesh)];
        if !writeSucceeds {
          return Success(None);
        }
      }
      return Success(Some(mesh));
    }
  }
}
