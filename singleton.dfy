/**
 * surface_reconstruction/singleton_meta.py: calling `SurfaceReconstruction`
 * resolves a strategy class through `__new__`, builds an instance of it the
 * first time that class comes up, and from then on hands back the instance
 * it cached. Calls are sequential; the lock is not modelled.
 */
module Singleton {
  import opened Values
  import opened Library
  import opened Parameters
  import opened Strategy
  import opened Registry
  import Open3d
  import PyMeshlab

  /** An instance in the cache, of whichever strategy class was built. */
  datatype Instance =
    | Open3dInstance(o: Open3d.Open3dSurface)
    | PyMeshlabInstance(p: PyMeshlab.PyMeshlabSurface)
    | UserInstance(s: SurfaceStrategy)

  /** An instance of the given strategy class. */
  predicate InstanceOf(i: Instance, c: StrategyClass)
  {
    match c
    case Open3dSurfaceClass => i.Open3dInstance?
    case PyMeshlabSurfaceClass => i.PyMeshlabInstance?
    case UserClass(_, _, _) => i.UserInstance?
  }

  /** The objects an instance is made of. */
  function Footprint(i: Instance): set<object>
  {
    match i
    case Open3dInstance(o) => {o, o.base}
    case PyMeshlabInstance(p) => {p, p.base}
    case UserInstance(s) => {s}
  }

  // ---------------------------------------------------------------------------
  // Binding the keyword arguments of the strategy's `__init__`
  // ---------------------------------------------------------------------------

  /** The keyword parameters of the class's `__init__`; a user class inherits the base's. */
  function Accepted(c: StrategyClass): set<string>
  {
    if c.Open3dSurfaceClass? then {"point_cloud_file", "output_file", "clean_up"}
    else {"point_cloud_file", "output_file", "filter_script_file", "clean_up"}
  }

  /** The `parameters` schema the class converts into the shared table. */
  function SchemaOf(c: StrategyClass): Schema
  {
    match c
    case Open3dSurfaceClass => Open3d.Open3dParameters
    case PyMeshlabSurfaceClass => PyMeshlab.PyMeshlabParameters
    case UserClass(_, _, parameters) => parameters
  }

  /** The arguments `__init__` runs with. */
  datatype Arguments = Arguments(pointCloudFile: string, outputFile: string, filterScriptFile: Value, cleanUp: Value)

  /** A path argument, `""` when it is not given. */
  function PathArgument(kwargs: map<string, Value>, name: string): (r: Result<string>)
    ensures name !in kwargs ==> r == Success("")
    ensures name in kwargs ==> (r.Success? <==> kwargs[name].Str?)
    ensures name in kwargs && r.Success? ==> r.value == kwargs[name].s
    ensures r.Failure? ==> r.error == TypeError(NotAString(name))
  {
    if name !in kwargs then Success("")
    else if kwargs[name].Str? then Success(kwargs[name].s)
    else Failure(TypeError(NotAString(name)))
  }

  /** The argument `name`, or its default. */
  function Argument(kwargs: map<string, Value>, name: string, default: Value): Value
  {
    if name in kwargs then kwargs[name] else default
  }

  /**
   * `cls(**kwargs)` binding its keyword arguments: every keyword must be a
   * parameter of `__init__`; the paths (and pymeshlab's script path) are strings.
   */
  function Bind(c: StrategyClass, kwargs: map<string, Value>): (r: Result<Arguments>)
    ensures r.Success? ==> kwargs.Keys <= Accepted(c)
    ensures !(kwargs.Keys <= Accepted(c)) ==> r == Failure(TypeError(UnexpectedKeywords(kwargs.Keys - Accepted(c))))
    ensures r.Success? ==>
              && PathArgument(kwargs, "point_cloud_file").Success? && PathArgument(kwargs, "output_file").Success?
              && r.value.pointCloudFile == PathArgument(kwargs, "point_cloud_file").value
              && r.value.outputFile == PathArgument(kwargs, "output_file").value
              && r.value.filterScriptFile == Argument(kwargs, "filter_script_file", Str(""))
              && r.value.cleanUp == Argument(kwargs, "clean_up", Bool(true))
    ensures r.Success? && c.PyMeshlabSurfaceClass? ==> r.value.filterScriptFile.Str?
  {
    var unexpected := kwargs.Keys - Accepted(c);
    if unexpected != {} then Failure(TypeError(UnexpectedKeywords(unexpected)))
    else
      var pointCloudFile :- PathArgument(kwargs, "point_cloud_file");
      var outputFile :- PathArgument(kwargs, "output_file");
      var script := Argument(kwargs, "filter_script_file", Str(""));
      if c.PyMeshlabSurfaceClass? && !script.Str? then Failure(TypeError(NotAString("filter_script_file")))
      else Success(Arguments(pointCloudFile, outputFile, script, Argument(kwargs, "clean_up", Bool(true))))
  }

  /** `method_type` is not a parameter of any `__init__`: left in, it makes every construction fail. */
  lemma MethodTypeRejected(c: StrategyClass, kwargs: map<string, Value>)
    requires "method_type" in kwargs
    ensures Bind(c, kwargs) == Failure(TypeError(UnexpectedKeywords(kwargs.Keys - Accepted(c))))
    ensures "method_type" in kwargs.Keys - Accepted(c)
  {
  }

  /** A path keyword that is given a non-string value makes the binding raise TypeError naming it. */
  lemma PathRejected(c: StrategyClass, kwargs: map<string, Value>, name: string)
    requires kwargs.Keys <= Accepted(c)
    requires name == "point_cloud_file" || name == "output_file"
    requires name in kwargs && !kwargs[name].Str?
    requires name == "output_file" ==> "point_cloud_file" !in kwargs || kwargs["point_cloud_file"].Str?
    ensures Bind(c, kwargs) == Failure(TypeError(NotAString(name)))
  {
  }

  /** The empty call binds every argument to its default. */
  lemma BindDefaults(c: StrategyClass)
    ensures Bind(c, map[]) == Success(Arguments("", "", Str(""), Bool(true)))
  {
  }

  // ---------------------------------------------------------------------------
  // What `__init__` does
  // ---------------------------------------------------------------------------

  /**
   * The `clean_up` the base `__init__` acts on: the built-in classes pass
   * their arguments by position, so the base's own `clean_up` keeps `True`.
   */
  function CleanUpSeen(c: StrategyClass, a: Arguments): Value
  {
    if c.UserClass? then a.cleanUp else Bool(true)
  }

  /** The base `__init__` of a user class, with its `load_file` logged: the error raised and the events. */
  function UserStarted(conversion: Option<Error>, a: Arguments, existing: set<string>): (Option<Error>, seq<Event>)
  {
    if conversion.Some? then (conversion, [])
    else
      var cleaned := if RemovesOutput(a.cleanUp, a.outputFile, existing) then [RemoveFile(a.outputFile)] else [];
      match LoadDecision(a.pointCloudFile, AfterCleanUp(a.cleanUp, a.outputFile, existing))
      case Failure(e) => (Some(e), cleaned)
      case Success(load) => (None, cleaned + if load then [UserLoadFile(a.pointCloudFile)] else [])
  }

  /**
   * The exception `__init__` raises given the outcome of the schema
   * conversion, if any: the conversion's, else FileNotFoundError for a
   * point cloud file that is missing once the output file has (perhaps)
   * been removed.
   */
  function InitError(c: StrategyClass, a: Arguments, conversion: Option<Error>, existing: set<string>): Option<Error>
  {
    if conversion.Some? then conversion
    else
      match LoadDecision(a.pointCloudFile, AfterCleanUp(CleanUpSeen(c, a), a.outputFile, existing))
      case Failure(e) => Some(e)
      case Success(_) => None
  }

  /** The exception `cls(**kwargs)` raises once its arguments are bound, if any. */
  function ConstructionError(c: StrategyClass, a: Arguments, entries: Table, existing: set<string>): Option<Error>
    requires UniqueNames(entries)
  {
    InitError(c, a, Converted(entries, SchemaOf(c)).error, existing)
  }

  /**
   * The error is the one each class's `__init__` raises: for the built-in
   * classes the one their own initialisation gives, with the base's
   * `clean_up` left at `True`; for a user class the base's.
   */
  lemma InitErrorMatchesStarted(c: StrategyClass, a: Arguments, conversion: Option<Error>, existing: set<string>)
    requires c.PyMeshlabSurfaceClass? ==> a.filterScriptFile.Str?
    ensures InitError(c, a, conversion, existing)
        == match c
           case Open3dSurfaceClass =>
             Open3d.Started(Open3d.State(false, false, EmptyCloud, EmptyMesh, []), conversion, a.outputFile, a.pointCloudFile, existing).0
           case PyMeshlabSurfaceClass =>
             PyMeshlab.Started([], NewMeshlabMesh, conversion, a.filterScriptFile.s, a.outputFile, a.pointCloudFile, existing).0
           case UserClass(_, _, _) =>
             UserStarted(conversion, a, existing).0
  {
  }

  /**
   * A built-in strategy ignores `clean_up=False`: given the same existing
   * file as point cloud and as output, it deletes that file and raises
   * FileNotFoundError for it. A user class honours the flag.
   */
  lemma CleanUpFlagIgnored(c: StrategyClass, a: Arguments, existing: set<string>)
    requires a.pointCloudFile != "" && a.pointCloudFile == a.outputFile && a.pointCloudFile in existing
    requires !Truthy(a.cleanUp)
    ensures !c.UserClass? ==> InitError(c, a, None, existing) == Some(FileNotFoundError(a.pointCloudFile))
    ensures c.UserClass? ==> InitError(c, a, None, existing) == None
  {
  }

  /** What a fresh instance holds once `__init__` has returned. */
  predicate Built(i: Instance, c: StrategyClass, a: Arguments, existing: set<string>)
    reads Footprint(i)
  {
    match c
    case Open3dSurfaceClass =>
      && i.Open3dInstance?
      && i.o.base.outputFile == a.outputFile && i.o.base.filterScriptFile == a.cleanUp
      && i.o.Snapshot() == Open3d.Started(Open3d.State(false, false, EmptyCloud, EmptyMesh, []), None, a.outputFile, a.pointCloudFile, existing).1
    case PyMeshlabSurfaceClass =>
      && i.PyMeshlabInstance? && a.filterScriptFile.Str?
      && i.p.base.outputFile == a.outputFile && i.p.base.filterScriptFile == a.cleanUp
      && i.p.filterScript == a.filterScriptFile.s
      && !i.p.base.normalsEstimated && !i.p.base.appliedFilters && i.p.mesh == NewMeshlabMesh
      && var started := PyMeshlab.Started([], NewMeshlabMesh, None, a.filterScriptFile.s, a.outputFile, a.pointCloudFile, existing);
         i.p.base.events == started.1 && i.p.pointCloud == started.2
    case UserClass(_, _, parameters) =>
      && i.UserInstance?
      && i.s.outputFile == a.outputFile && i.s.filterScriptFile == a.filterScriptFile
      && i.s.parameters == parameters
      && !i.s.normalsEstimated && !i.s.appliedFilters
      && i.s.events == UserStarted(None, a, existing).1
  }

  /** `Open3dSurface(**kwargs)` once its arguments are bound. */
  method ConstructOpen3d(table: ParameterTable, a: Arguments, existing: set<string>) returns (r: Result<Instance>)
    requires table.Valid()
    modifies table
    ensures table.Valid() && table.entries == Converted(old(table.entries), Open3d.Open3dParameters).table
    ensures var e := ConstructionError(Open3dSurfaceClass, a, old(table.entries), existing);
      && (e.Some? ==> r == Failure(e.value))
      && (e.None? ==> r.Success? && fresh(Footprint(r.value)) && Built(r.value, Open3dSurfaceClass, a, existing))
  {
    var o := new Open3d.Open3dSurface(table, a.outputFile, a.cleanUp);
    var err := o.Init(a.pointCloudFile, existing);
    if err.Some? {
      return Failure(err.value);
    }
    r := Success(Open3dInstance(o));
  }

  /** `PyMeshlabSurface(**kwargs)` once its arguments are bound. */
  method ConstructPyMeshlab(table: ParameterTable, a: Arguments, existing: set<string>) returns (r: Result<Instance>)
    requires table.Valid() && a.filterScriptFile.Str?
    modifies table
    ensures table.Valid() && table.entries == Converted(old(table.entries), PyMeshlab.PyMeshlabParameters).table
    ensures var e := ConstructionError(PyMeshlabSurfaceClass, a, old(table.entries), existing);
      && (e.Some? ==> r == Failure(e.value))
      && (e.None? ==> r.Success? && fresh(Footprint(r.value)) && Built(r.value, PyMeshlabSurfaceClass, a, existing))
  {
    var p := new PyMeshlab.PyMeshlabSurface(table, a.outputFile, a.filterScriptFile.s, a.cleanUp);
    var err := p.Init(a.pointCloudFile, existing);
    if err.Some? {
      return Failure(err.value);
    }
    r := Success(PyMeshlabInstance(p));
  }

  /** A user class's constructor once its arguments are bound: the base `__init__`, then its own `load_file`. */
  method ConstructUser(c: StrategyClass, table: ParameterTable, a: Arguments, existing: set<string>) returns (r: Result<Instance>)
    requires table.Valid() && c.UserClass?
    modifies table
    ensures table.Valid() && table.entries == Converted(old(table.entries), c.parameters).table
    ensures var e := ConstructionError(c, a, old(table.entries), existing);
      && (e.Some? ==> r == Failure(e.value))
      && (e.None? ==> r.Success? && fresh(Footprint(r.value)) && Built(r.value, c, a, existing))
  {
    var s := new SurfaceStrategy(table, c.parameters, a.outputFile, a.filterScriptFile);
    var load := s.Init(a.pointCloudFile, a.cleanUp, existing);
    if load.Failure? {
      return Failure(load.error);
    }
    if load.value {
      // The user's `load_file`, whose effect is not known here, is logged.
      s.events := s.events + [UserLoadFile(a.pointCloudFile)];
    }
    r := Success(UserInstance(s));
  }

  /**
   * What `cls(**kwargs)` does to the shared table, from `before` to `after`,
   * and what it gives: the binding error and an untouched table, or the
   * schema converted and then the exception `__init__` raised or a new
   * instance holding what `__init__` set up.
   */
  ghost predicate Constructed(c: StrategyClass, kwargs: map<string, Value>, before: Table, after: Table,
                              r: Result<Instance>, existing: set<string>)
    requires UniqueNames(before)
  {
    var b := Bind(c, kwargs);
    && (b.Failure? ==> r == Failure(b.error) && after == before)
    && (b.Success? ==>
Initialized(c, b.value, before, after, r, existing))
  }

  /**
   * Running `__init__` on bound arguments: the table `before` becomes
   * `after` with the class's schema converted, and the call either raises
   * the construction error or yields an instance.
   */
  ghost predicate Initialized(c: StrategyClass, a: Arguments, before: Table, after: Table,
                              r: Result<Instance>, existing: set<string>)
    requires UniqueNames(before)
  {
    && after == Converted(before, SchemaOf(c)).table
    && var e := ConstructionError(c, a, before, existing);
    && (e.Some? ==> r == Failure(e.value))
    && (e.None? <==> r.Success?)
  }

  /** A successful construction holds what `__init__` set up from the bound arguments. */
  predicate BuiltFrom(i: Instance, c: StrategyClass, kwargs: map<string, Value>, existing: set<string>)
    reads Footprint(i)
  {
    Bind(c, kwargs).Success? && Built(i, c, Bind(c, kwargs).value, existing)
  }

  /** `cls(**kwargs)` once its arguments are bound: run the class's `__init__` against the shared table. */
  method Construct(c: StrategyClass, table: ParameterTable, a: Arguments, existing: set<string>) returns (r: Result<Instance>)
    requires table.Valid() && (c.PyMeshlabSurfaceClass? ==> a.filterScriptFile.Str?)
    modifies table
    ensures table.Valid() && Initialized(c, a, old(table.entries), table.entries, r, existing)
    ensures r.Success? ==> fresh(Footprint(r.value)) && Built(r.value, c, a, existing)
  {
    match c {
      case Open3dSurfaceClass =>
        r := ConstructOpen3d(table, a, existing);
      case PyMeshlabSurfaceClass =>
        r := ConstructPyMeshlab(table, a, existing);
      case UserClass(_, _, _) =>
        r := ConstructUser(c, table, a, existing);
    }
  }

  /** The inner dict of `owner`, empty before its first call. */
  function Cached(instances: map<SurfaceReconstruction, map<StrategyClass, Instance>>, owner: SurfaceReconstruction): map<StrategyClass, Instance>
  {
    if owner in instances then instances[owner] else map[]
  }

  /** Every instance in `cached` is of the class it is cached under. */
  predicate Consistent(cached: map<StrategyClass, Instance>)
  {
    forall c | c in cached :: InstanceOf(cached[c], c)
  }

  /** `SingletonMeta._instances`: for each class with this metaclass, its instances by strategy class. */
  class SingletonCache {
    var instances: map<SurfaceReconstruction, map<StrategyClass, Instance>>

    /** Every cached instance is of the class it is cached under. */
    predicate Valid()
      reads this
    {
      forall owner | owner in instances :: Consistent(instances[owner])
    }

    constructor ()
      ensures Valid() && instances == map[]
    {
      instances := map[];
    }

    /**
     * `SingletonMeta.__call__(owner, **kwargs)`: make room for `owner`,
     * resolve the strategy class, build it with `method_type` removed unless
     * an instance of it is cached, and return the cached instance. A call
     * that raises caches nothing; entries of other owners never change.
     */
    method Call(owner: SurfaceReconstruction, table: ParameterTable, kwargs: map<string, Value>, existing: set<string>)
      returns (r: Result<Instance>)
      requires Valid() && table.Valid()
      modifies this, table
      ensures Valid() && table.Valid()
      ensures r.Success? ==> Resolve(owner.types, kwargs).Success? && InstanceOf(r.value, Resolve(owner.types, kwargs).value)
      ensures instances.Keys == old(instances).Keys + {owner}
      ensures forall other | other in old(instances) && other != owner :: instances[other] == old(instances[other])
      ensures var cached := Cached(old(instances), owner);
        var c := Resolve(owner.types, kwargs);
        && (c.Failure? ==> r == Failure(c.error) && instances[owner] == cached && table.entries == old(table.entries))
        && (c.Success? && c.value in cached ==>
              r == Success(cached[c.value]) && instances[owner] == cached && table.entries == old(table.entries))
        && (c.Success? && c.value !in cached ==>
              && Constructed(c.value, kwargs - {"method_type"}, old(table.entries), table.entries, r, existing)
              && (r.Failure? ==> instances[owner] == cached)
              && (r.Success? ==>
                    && instances[owner] == cached[c.value := r.value]
                    && fresh(Footprint(r.value)) && BuiltFrom(r.value, c.value, kwargs - {"method_type"}, existing)))
    {
      Enter(owner);
      var c := Resolve(owner.types, kwargs);
      if c.Failure? {
        return Failure(c.error);
      }
      var cls := c.value;
      if cls in instances[owner] {
        return Success(instances[owner][cls]);
      }
      var arguments := kwargs - {"method_type"};
      var b := Bind(cls, arguments);
      if b.Failure? {
        return Failure(b.error);
      }
      r := Fill(owner, cls, table, b.value, existing);
    }

    /** Give `owner` its inner dict if it has none. */
    method Enter(owner: SurfaceReconstruction)
      requires Valid()
      modifies this
      ensures Valid() && instances == old(instances)[owner := Cached(old(instances), owner)]
    {
      if owner !in instances {
        instances := instances[owner := map[]];
      }
    }

    /**
     * `_instances[owner][cls] = cls(**kwargs)` once the arguments are bound:
     * run `__init__`, and cache the instance unless it raised.
     */
    method Fill(owner: SurfaceReconstruction, cls: StrategyClass, table: ParameterTable, a: Arguments,
                existing: set<string>) returns (r: Result<Instance>)
      requires Valid() && table.Valid() && owner in instances && cls !in instances[owner]
      requires cls.PyMeshlabSurfaceClass? ==> a.filterScriptFile.Str?
      modifies this, table
      ensures Valid() && table.Valid()
      ensures Initialized(cls, a, old(table.entries), table.entries, r, existing)
      ensures r.Failure? ==> instances == old(instances)
      ensures r.Success? ==>
        && instances == old(instances)[owner := old(instances[owner])[cls := r.value]]
        && fresh(Footprint(r.value)) && Built(r.value, cls, a, existing)
    {
      r := Construct(cls, table, a, existing);
      if r.Success? {
        Store(owner, cls, r.value);
      }
    }

    /** `_instances[owner][cls] = instance`. */
    method Store(owner: SurfaceReconstruction, cls: StrategyClass, instance: Instance)
      requires Valid() && owner in instances && InstanceOf(instance, cls)
      modifies this
      ensures Valid() && instances == old(instances)[owner := old(instances[owner])[cls := instance]]
    {
      instances := instances[owner := instances[owner][cls := instance]];
    }
  }

  /** Two calls that resolve to the same class give the identical instance; the second builds nothing. */
  method SameClassSameInstance(cache: SingletonCache, owner: SurfaceReconstruction, table: ParameterTable,
                               first: map<string, Value>, second: map<string, Value>, existing: set<string>)
    returns (r1: Result<Instance>, r2: Result<Instance>)
    requires cache.Valid() && table.Valid()
    requires Resolve(owner.types, second) == Resolve(owner.types, first)
    modifies cache, table
    ensures r1.Success? ==> r2 == r1
  {
    r1 := cache.Call(owner, table, first, existing);
    r2 := cache.Call(owner, table, second, existing);
  }

  /**
   * With the class-body table, `method_type='open3d'` and no method type
   * share one Open3D instance, and the second call's arguments are ignored.
   */
  method DefaultSharesOpen3d(cache: SingletonCache, owner: SurfaceReconstruction, table: ParameterTable,
                             kwargs: map<string, Value>, existing: set<string>)
    returns (r1: Result<Instance>, r2: Result<Instance>)
    requires cache.Valid() && table.Valid() && owner.types == InitialTypes && "method_type" !in kwargs
    modifies cache, table
    ensures r1.Success? ==> r1.value.Open3dInstance? && r2 == r1
  {
    InitialResolution(kwargs);
    r1 := cache.Call(owner, table, map["method_type" := Str("open3d")], existing);
    r2 := cache.Call(owner, table, kwargs, existing);
  }
}
