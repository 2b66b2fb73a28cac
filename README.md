# surface_reconstruction: the configuration and dispatch layer, in Dafny

`surface_reconstruction` wraps two Poisson surface-reconstruction libraries
(open3d and pymeshlab) behind one factory. This project models the part of it
that the package itself decides, and proves what that part promises:

- **The parameter layer** (`SurfaceStrategy`). Each strategy class declares a
  schema of stages. `_parameters_convertion` flattens the schema into one
  class-level dict `_parameters_key_values`, which every strategy shares.
  `poisson_filters` merges a call's `filters` overrides into that dict stage
  by stage. It then calls a callback on every stage whose map is non-empty.
  The shared dict is one `ParameterTable` object. Its contents are an
  insertion-ordered sequence of (stage name, stage map) items with unique
  names.
- **`SurfaceStrategy.__init__`**: the flags, the conversion, the clean-up of
  the output file and the check for the point-cloud file. The file system is
  a set of existing paths passed in.
- **The two strategies.** `Open3dSurface` routes each stage to its own method,
  to the point cloud or to mesh creation. `PyMeshlabSurface` runs a filter
  script or one filter per stage. Both choose the output file and set the
  state flags. Each library call is appended to an event log, and meshes and
  clouds are symbolic values named by how they were made.
- **The registry** `SurfaceReconstruction`: `_types`, the lookup in `__new__`
  with its `default` fall-back and its TypeError, and `register_type` with
  its key rule and its Warning.
- **The singleton cache** `SingletonMeta.__call__`. It resolves the class,
  builds an instance on the first call for that class (with `method_type`
  removed from the keyword arguments) and returns the cached one afterwards.

Both subclasses pass their arguments to `super().__init__` by position. So the
base class's `filter_script_file` receives the `clean_up` value, and its
`clean_up` stays `True`. The model reproduces this: `Singleton.Built` states
it for the built-in classes, and `Singleton.CleanUpFlagIgnored` shows what it
costs a caller.

Modules: `Values` (Python values, truthiness, exceptions), `Library` (the
event log and symbolic library objects), `Parameters`, `Strategy`, `Open3d`,
`PyMeshlab`, `Registry`, `Singleton`. Inheritance is by composition: each
subclass object holds its `SurfaceStrategy` as `base`.

## Model

| member | source | states |
|---|---|---|
| Parameters.Find | surface_reconstruction/surface_strategy.py:24 | the position of a stage name in the shared dict, or none exactly when no item carries that name |
| Parameters.Assign | surface_reconstruction/surface_strategy.py:96 | `d[name] = stage` keeps the names unique and keeps every existing item's name at its position; it does not grow the dict when the name is already there |
| Parameters.AssignNew | surface_reconstruction/surface_strategy.py:96 | assigning a new name appends it at the end, as dict insertion order does |
| Parameters.AssignAt | surface_reconstruction/surface_strategy.py:96 | assigning an existing name replaces its map in place |
| Parameters.AssignThree | surface_reconstruction/surface_strategy.py:94-101 | three assignments of distinct names, two new and one possibly present, give the table appended with the new ones and the present one replaced in place |
| Parameters.Converted | surface_reconstruction/surface_strategy.py:92-103 | converting a schema into the shared dict leaves it a dict (unique names) |
| Parameters.ItemsToStageItems | surface_reconstruction/surface_strategy.py:95-96 | a list entry that converts has every item well formed, and each item's name is a key of the stage map |
| Parameters.ItemsToStageKeys | surface_reconstruction/surface_strategy.py:96 | every key of the converted stage map is the name of some item |
| Parameters.ItemsToStageLastWins | surface_reconstruction/surface_strategy.py:96 | the last item with a given name sets that key's value; a later repeated name overwrites the earlier one |
| Parameters.ItemsToStageSnoc | surface_reconstruction/surface_strategy.py:96 | appending an item to a list entry sets that item's name to its value in the converted map |
| Parameters.ItemsToStageFails | surface_reconstruction/surface_strategy.py:96 | a list entry fails to convert exactly when some item is malformed, and the error is that of the first malformed item |
| Parameters.DictEntryToStage | surface_reconstruction/surface_strategy.py:97-101 | a dict entry holding both `name` and `value` becomes the one-entry map `{name: value}`; any other dict entry is copied as it is |
| Parameters.ConvertedCons | surface_reconstruction/surface_strategy.py:94-101 | a schema whose first entry converts assigns that stage, then converts the rest |
| Parameters.ItemListConverts | surface_reconstruction/surface_strategy.py:95-96 | a list of `{name, description, value}` items converts to the map from each name to its value |
| Parameters.ConvertedItemList | surface_reconstruction/surface_strategy.py:94-96 | a schema starting with such a list assigns that map, then converts the rest |
| Parameters.WrittenNames | surface_reconstruction/surface_strategy.py:94 | every stage a schema writes is one of the schema's own names |
| Parameters.FindUnique | surface_reconstruction/surface_strategy.py:24 | in a dict, looking up the name of item `j` finds position `j` |
| Parameters.AssignLookup | surface_reconstruction/surface_strategy.py:96 | after `d[name] = stage`, `d[name]` is `stage` and every other key's lookup is unchanged |
| Parameters.ConvertedClosedForm | surface_reconstruction/surface_strategy.py:94-103 | a conversion that does not raise leaves each stage the schema writes holding its last converted map and every other stage as before; when all written stages are present already, the dict does not grow |
| Parameters.ConvertedErrorIndependent | surface_reconstruction/surface_strategy.py:94-101 | whether and how conversion raises depends on the schema only, not on the shared dict's contents |
| Parameters.ConvertedFrame | surface_reconstruction/surface_strategy.py:94-103 | conversion changes only the stages named in the schema; existing items keep their positions and the dict never shrinks |
| Parameters.SameTable | surface_reconstruction/surface_strategy.py:24 | two dicts with the same keys in the same order and the same lookups are equal |
| Parameters.ConvertedIdempotent | surface_reconstruction/surface_strategy.py:92-103 | converting the same schema twice gives the same dict as converting it once |
| Parameters.PassFrom | surface_reconstruction/surface_strategy.py:75-89 | a pass over the dict keeps its length and every stage name at its position |
| Parameters.PassFromFrame | surface_reconstruction/surface_strategy.py:75-89 | a pass from position `i` leaves the stages before `i` untouched |
| Parameters.PassFromMerged | surface_reconstruction/surface_strategy.py:77-86 | on a pass that does not raise, every stage from `i` on holds its map merged with its override |
| Parameters.PassFromCalls | surface_reconstruction/surface_strategy.py:75-89 | on a pass that does not raise, the callbacks are exactly the non-empty merged stages in dict order |
| Parameters.PassFromNoError | surface_reconstruction/surface_strategy.py:75-89 | with a callback that never raises and every override well formed, the pass does not raise |
| Parameters.NonEmptyStagesMeaning | surface_reconstruction/surface_strategy.py:88-89 | the reference call list holds exactly the dict's non-empty stages, each with its own map |
| Parameters.FilterPassMeaning | surface_reconstruction/surface_strategy.py:71-89 | `poisson_filters` keeps the stage names; on success each stage holds its merged map, and the callback was invoked once per non-empty merged stage, in order, with that map |
| Parameters.PassFromExtends | surface_reconstruction/surface_strategy.py:88-89 | a pass only appends to the calls made so far |
| Parameters.PassFromState | surface_reconstruction/surface_strategy.py:88-89 | with a callback that never raises, the final state is the callbacks applied in turn along the calls made |
| Parameters.PassFromStateCall | surface_reconstruction/surface_strategy.py:88-89 | the same as `PassFromState`, for a pass whose current stage is non-empty and is called back |
| Parameters.ChainCons | surface_reconstruction/surface_strategy.py:89 | a callback that raises stops the chain with its error; otherwise the chain goes on from its new state |
| Parameters.NonEmptyStagesFrom | surface_reconstruction/surface_strategy.py:88 | the stage at `i` is called back exactly when its map is non-empty |
| Parameters.PassFromNoFilters | surface_reconstruction/surface_strategy.py:77-89 | without a `filters` keyword a pass leaves the dict unchanged, even when a callback raises, and calls back the non-empty stages in order, ending or raising as that chain of calls does |
| Parameters.NoFiltersKeepsTable | surface_reconstruction/surface_strategy.py:77-89 | without `filters`, `poisson_filters` leaves the dict unchanged whether or not a callback raises, so top-level keywords such as `depth=8` change no stage; it calls back the non-empty stages in order and raises what the first raising callback raises |
| Parameters.NeverFailsChain | surface_reconstruction/surface_strategy.py:89 | a chain of callbacks that never raise does not raise |
| Parameters.FalsyOverrideResets | surface_reconstruction/surface_strategy.py:80-88 | a falsy override (`{}`, `None`, `False`, ...) resets the stage to `{}`, and the stage is not called back |
| Parameters.DictOverrideMerges | surface_reconstruction/surface_strategy.py:83-86 | a non-empty dict override updates the stage in place: its keys win, the other keys keep their old values, no key is lost |
| Parameters.PassFromMissingStage | surface_reconstruction/surface_strategy.py:75-89 | a pass whose `filters` lacks a stage name always raises; when the callbacks of the earlier stages succeed on any state, it raises KeyError for the first such stage |
| Parameters.MissingStageFails | surface_reconstruction/surface_strategy.py:75-89 | when `filters` does not name a stage of the dict, `poisson_filters` raises; when the callbacks of the stages before it succeed on any state, the error is KeyError for the first stage `filters` does not name |
| Parameters.FiltersNotADict | surface_reconstruction/surface_strategy.py:78-80 | a `filters` value that is not a dict raises TypeError at the first stage, before any change or callback; on an empty dict nothing happens |
| Parameters.CallbackFailureStops | surface_reconstruction/surface_strategy.py:86-89 | a callback that raises stops the pass: its stage keeps its merged map, later stages are untouched, and the error propagates |
| Parameters.ParameterTable.constructor | surface_reconstruction/surface_strategy.py:24 | the shared dict starts empty |
| Parameters.ParameterTable.Convert | surface_reconstruction/surface_strategy.py:92-103 | the loop over the schema writes the shared dict in place, leaving it and the exception raised as the conversion specification gives them |
| Parameters.ParameterTable.PoissonFilters | surface_reconstruction/surface_strategy.py:71-89 | the loop over the shared dict merges each stage in place and calls back non-empty stages, ending in the table, state and error the pass specification gives |
| Strategy.AfterCleanUp | surface_reconstruction/surface_strategy.py:35-36 | the output file is removed exactly when `clean_up` is truthy, the path is non-empty and the file exists; no other file changes |
| Strategy.CleanUpThenMissing | surface_reconstruction/surface_strategy.py:35-40 | with `clean_up` truthy and the same existing path as output and point cloud, the file is removed first and then reported missing |
| Strategy.LoadedAfterCleanUp | surface_reconstruction/surface_strategy.py:35-42 | the point cloud is loaded exactly when its path is non-empty, exists, and is not the output file just removed by clean-up; an empty path loads nothing |
| Strategy.CleanUpSparesOtherFiles | surface_reconstruction/surface_strategy.py:35-40 | when clean-up is off or the output path differs, the load decision is that of the untouched file system |
| Strategy.SurfaceStrategy.constructor | surface_reconstruction/surface_strategy.py:26-30 | the output and filter-script fields are set and both flags start false |
| Strategy.SurfaceStrategy.Init | surface_reconstruction/surface_strategy.py:32-42 | the class's schema is converted into the shared dict; if that raises, nothing else happens; otherwise the output file is removed when clean-up applies; then an empty point-cloud path loads nothing, an existing one is loaded and a missing one raises FileNotFoundError for that path |
| Open3d.EstimateNormals | surface_reconstruction/open3d_surface.py:78-87 | without `normals` it raises KeyError; otherwise it resets the normals to that shape, forwards every other parameter unchanged to the cloud's `estimate_normals`, and sets `normals_estimated` |
| Open3d.StrategyMethodFirst | surface_reconstruction/open3d_surface.py:93-99 | while normals are not estimated, a stage named after a strategy method goes to that method and sets `applied_filters` |
| Open3d.CloudMethodAfterNormals | surface_reconstruction/open3d_surface.py:100-106 | once normals are estimated, a stage named after a point-cloud method goes to the cloud and sets `applied_filters` |
| Open3d.UnknownStageIgnored | surface_reconstruction/open3d_surface.py:91-114 | a stage that is routed nowhere and is not the Poisson stage changes nothing |
| Open3d.PoissonStageBuildsMesh | surface_reconstruction/open3d_surface.py:108-114 | the Poisson stage always replaces the mesh with one created from the cloud and that stage's map; no stage changes the cloud or, otherwise, the mesh |
| Open3d.AppliedWhenRouted | surface_reconstruction/open3d_surface.py:93-114 | after a stage, `applied_filters` is true exactly when it was already, or the stage was routed somewhere, or it is the Poisson stage |
| Open3d.ApplyStageFails | surface_reconstruction/open3d_surface.py:81-97 | a stage raises exactly when `estimate_normals` is reached through the strategy without `normals` |
| Open3d.DefaultNormalsConverts | surface_reconstruction/open3d_surface.py:9-20 | the `estimate_normals` items convert to `{fast_normal_computation: True, normals: (1, 3)}` |
| Open3d.DefaultOrientConverts | surface_reconstruction/open3d_surface.py:21-27 | the orientation item converts to `{k: 100}` |
| Open3d.DefaultPoissonConverts | surface_reconstruction/open3d_surface.py:28-54 | the Poisson items convert to `{depth: 8, width: 0, scale: 1.1, linear_fit: False, n_threads: -1}` |
| Open3d.DefaultTableAssigned | surface_reconstruction/open3d_surface.py:8-55 | the three default stages assigned to an empty dict appear in schema order |
| Open3d.DefaultSchemaConverts | surface_reconstruction/open3d_surface.py:8-55 | the open3d schema converts, without error, into the three default stages in schema order |
| Open3d.DefaultStagesCalled | surface_reconstruction/surface_strategy.py:88-89 | every default open3d stage is non-empty, so each is called back |
| Open3d.DefaultChain | surface_reconstruction/open3d_surface.py:116 | the three default callbacks chain step by step |
| Open3d.DefaultPoissonStage | surface_reconstruction/open3d_surface.py:108-114 | after normals are estimated, the default Poisson stage only creates the mesh |
| Open3d.FirstDefaultRun | surface_reconstruction/open3d_surface.py:89-116 | the first run over the default stages estimates normals through the strategy, then orients them and builds the mesh through the cloud |
| Open3d.LaterDefaultRun | surface_reconstruction/open3d_surface.py:89-116 | a later run sends every default stage to the cloud, `estimate_normals` included, and builds the mesh |
| Open3d.Open3dSurface.constructor | surface_reconstruction/open3d_surface.py:57-64 | an empty cloud and mesh; the base's `filter_script_file` receives `clean_up` |
| Open3d.Open3dSurface.Init | surface_reconstruction/open3d_surface.py:64 | the base `__init__` with its own `clean_up` left `True`: conversion into the shared dict, clean-up and load, as `Started` gives them |
| Open3d.Open3dSurface.LoadFile | surface_reconstruction/open3d_surface.py:66-76 | the cloud becomes the one read from the path, and the read is logged |
| Open3d.Open3dSurface.Restore | surface_reconstruction/open3d_surface.py:91-114 | a callback's new fields are written back to the strategy |
| Open3d.Open3dSurface.EstimateNormalsCall | surface_reconstruction/open3d_surface.py:78-87 | the method form of `estimate_normals`: on KeyError nothing changes, otherwise the fields become what `EstimateNormals` gives |
| Open3d.Open3dSurface.PoissonMesh | surface_reconstruction/open3d_surface.py:89-139 | a pass with the routing callback over the shared dict; then, when saving, the mesh is written to `params['output_file']` when given, else to the strategy's `output_file`; a failed write returns None, otherwise the mesh is returned; a `callback` keyword raises TypeError first |
| PyMeshlab.Filters | surface_reconstruction/pymeshlab_surface.py:138 | one filter event per callback |
| PyMeshlab.FiltersAt | surface_reconstruction/pymeshlab_surface.py:138 | filter event `k` applies call `k`'s name and map |
| PyMeshlab.MeshlabApplyNeverFails | surface_reconstruction/pymeshlab_surface.py:137-139 | the filter callback never raises, on any state, stage name or map |
| PyMeshlab.ChainFilters | surface_reconstruction/pymeshlab_surface.py:137-141 | applying a list of calls logs one filter per call, in order; `applied_filters` becomes true exactly when there was a call |
| PyMeshlab.FilterPassFilters | surface_reconstruction/pymeshlab_surface.py:136-141 | without a script, each stage called back is applied as a filter, in order, and `applied_filters` is true exactly when at least one was |
| PyMeshlab.StartedLoads | surface_reconstruction/pymeshlab_surface.py:118-127 | when the point cloud exists and is not the output file, `__init__` raises nothing, its log ends with the loading of the mesh and then, only for a non-empty script path, of the filter script, and the point cloud is the mesh set's current mesh |
| PyMeshlab.ConvertedDefault | surface_reconstruction/pymeshlab_surface.py:7-109 | the pymeshlab schema converts without error, assigning its three stages in schema order to any dict |
| PyMeshlab.DefaultSchemaConverts | surface_reconstruction/pymeshlab_surface.py:7-109 | into an empty dict it gives the three default stages, in schema order |
| PyMeshlab.SharedTableAfterOpen3d | surface_reconstruction/surface_strategy.py:24-33 | after an open3d strategy, a pymeshlab strategy appends its two new stages and overwrites the shared Poisson stage in place |
| PyMeshlab.PyMeshlabSurface.constructor | surface_reconstruction/pymeshlab_surface.py:112-118 | fresh meshes, the private filter-script path, and the base's `filter_script_file` set to `clean_up` |
| PyMeshlab.PyMeshlabSurface.Init | surface_reconstruction/pymeshlab_surface.py:118 | the base `__init__` with its own `clean_up` left `True`: conversion, clean-up and load, as `Started` gives them |
| PyMeshlab.PyMeshlabSurface.LoadFile | surface_reconstruction/pymeshlab_surface.py:120-127 | the mesh is loaded and, when the script path is non-empty, the filter script after it; the point cloud is the current mesh |
| PyMeshlab.PyMeshlabSurface.PoissonMesh | surface_reconstruction/pymeshlab_surface.py:129-160 | `applied_filters` is reset; a non-empty script is applied with no per-stage filter and the dict untouched; otherwise the filter pass runs; the current mesh is saved, only when saving, to `params['output_file']` when given, else to the strategy's `output_file`, and is returned |
| Registry.ResolveRegistered | surface_reconstruction/surface_reconstruction.py:22-23 | a registered name gives exactly its registered class |
| Registry.ResolveDefault | surface_reconstruction/surface_reconstruction.py:18-20 | a missing or falsy `method_type` gives the `default` class |
| Registry.ResolveUnregistered | surface_reconstruction/surface_reconstruction.py:24-28 | an unregistered name raises the "not registered" TypeError |
| Registry.ResolveUnhashable | surface_reconstruction/surface_reconstruction.py:21-23 | a truthy method type that cannot be hashed raises TypeError for that |
| Registry.InitialResolution | surface_reconstruction/surface_reconstruction.py:11-15 | with the initial table, `pymeshlab` gives `PyMeshlabSurface`, while `open3d` and no `method_type` give `Open3dSurface` |
| Registry.NotRegisteredMessage | surface_reconstruction/surface_reconstruction.py:25-26 | the message names the method type, says "was not registered" and points to `SurfaceReconstruction.register_type()` |
| Registry.RemoveAll | surface_reconstruction/surface_reconstruction.py:32 | `str.replace(part, '')` never lengthens the name |
| Registry.RemoveAllAbsent | surface_reconstruction/surface_reconstruction.py:32 | a name without the part is unchanged |
| Registry.LowerLowers | surface_reconstruction/surface_reconstruction.py:32 | a lowered name has no capitals, lowering is idempotent, and a name without capitals is its own lowering |
| Registry.RemoveAllLeading | surface_reconstruction/surface_reconstruction.py:32 | an occurrence at the start is removed and the scan resumes after it |
| Registry.RemoveAllPrefix | surface_reconstruction/surface_reconstruction.py:32 | a head in which no occurrence starts is kept as it is, and only the rest is scanned |
| Registry.NoOccurrenceInStem | surface_reconstruction/surface_reconstruction.py:32 | no occurrence starts inside a stem none of whose letters is the part's first letter |
| Registry.RemoveAllTrailing | surface_reconstruction/surface_reconstruction.py:32 | a name ending in the part, with no earlier occurrence, loses exactly that ending |
| Registry.RemoveAllSinglePass | surface_reconstruction/surface_reconstruction.py:32 | the removal makes one pass: `SurSurfaceface` becomes `Surface`, which still contains the part |
| Registry.KeyOfSurfaceName | surface_reconstruction/surface_reconstruction.py:32 | a class named stem + "Surface", with no occurrence of "Surface" starting inside the stem, gets the lowered stem as its key |
| Registry.OtherLibraryKey | surface_reconstruction/surface_reconstruction.py:32 | `OtherLibrarySurface` gets the key `otherlibrary` |
| Registry.Open3dKey | surface_reconstruction/surface_reconstruction.py:11-32 | `Open3dSurface`'s key is `open3d`, initially registered to that class |
| Registry.PyMeshlabKey | surface_reconstruction/surface_reconstruction.py:11-32 | `PyMeshlabSurface`'s key is `pymeshlab`, initially registered to that class |
| Registry.RegisterThenResolve | surface_reconstruction/surface_reconstruction.py:22-34 | after registering a class under a new key, looking that key up gives the class |
| Registry.SurfaceReconstruction.constructor | surface_reconstruction/surface_reconstruction.py:11-15 | the table starts with `pymeshlab`, `open3d` and `default` |
| Registry.SurfaceReconstruction.RegisterType | surface_reconstruction/surface_reconstruction.py:30-36 | a new key adds exactly that entry; an existing key raises a Warning naming the class and leaves the table unchanged |
| Singleton.Bind | surface_reconstruction/singleton_meta.py:21 | the keywords must be declared by the class's `__init__` (TypeError otherwise); the paths are the given strings or `""`; `filter_script_file` defaults to `""` and `clean_up` to `True` |
| Singleton.MethodTypeRejected | surface_reconstruction/singleton_meta.py:18-21 | no strategy accepts `method_type`, which is why it must be removed before construction |
| Singleton.PathRejected | surface_reconstruction/surface_strategy.py:26 | a path keyword given a non-string value makes the binding raise TypeError naming it |
| Singleton.BindDefaults | surface_reconstruction/surface_strategy.py:26 | with no keywords, every class gets the defaults |
| Singleton.InitErrorMatchesStarted | surface_reconstruction/surface_strategy.py:32-42 | the error a construction raises is the one each class's `__init__` gives |
| Singleton.CleanUpFlagIgnored | surface_reconstruction/open3d_surface.py:64 | with `clean_up=False` and the same existing file as point cloud and output, a built-in strategy still deletes it and raises FileNotFoundError; a user class does not |
| Singleton.ConstructOpen3d | surface_reconstruction/open3d_surface.py:57-64 | `Open3dSurface(**kwargs)`: the shared dict is converted; the construction error is raised, or a fresh instance is built in the state `__init__` leaves |
| Singleton.ConstructPyMeshlab | surface_reconstruction/pymeshlab_surface.py:112-118 | `PyMeshlabSurface(**kwargs)`, likewise |
| Singleton.ConstructUser | surface_reconstruction/surface_strategy.py:26-42 | a registered user class, likewise, with its own `load_file` logged |
| Singleton.Construct | surface_reconstruction/singleton_meta.py:21 | `instance(**kwargs)` for any class, dispatched on the class |
| Singleton.SingletonCache.constructor | surface_reconstruction/singleton_meta.py:5 | the cache starts empty |
| Singleton.SingletonCache.Call | surface_reconstruction/singleton_meta.py:9-23 | the owner's inner dict is created first; a failed lookup raises and caches nothing; a cached class returns its instance without touching the shared dict; otherwise `method_type` is removed, the instance is built once and cached, and no other entry changes |
| Singleton.SingletonCache.Enter | surface_reconstruction/singleton_meta.py:12-13 | an owner seen for the first time gets an empty inner dict |
| Singleton.SingletonCache.Fill | surface_reconstruction/singleton_meta.py:21 | the instance is built and cached under its class only when `__init__` does not raise |
| Singleton.SingletonCache.Store | surface_reconstruction/singleton_meta.py:21 | caching adds exactly that entry and keeps every instance under its own class |
| Singleton.SameClassSameInstance | surface_reconstruction/singleton_meta.py:17-23 | two calls that resolve to the same class return the identical instance once the first succeeds |
| Singleton.DefaultSharesOpen3d | surface_reconstruction/surface_reconstruction.py:13-14 | with no `method_type`, the instance is an `Open3dSurface`, and a second call returns the same one |

## Left out

- File I/O and the file system: the set of existing paths is a parameter, and reading a cloud, writing a mesh and deleting a file are logged events. Whether a write succeeds is a parameter.
- The libraries themselves (normal estimation, Poisson reconstruction, pymeshlab filters): each call is an event. A mesh or cloud is a symbolic value built from its inputs.
- `json.dumps` in `default_parameters`. `SurfaceStrategy.DefaultParameters` models only the branch that returns the schema.
- The `threading.Lock` in `SingletonMeta`: calls are sequential.
- Python's `hasattr`, `getattr` and `callable`: each object has a fixed set of method and field names (`OwnMethods`, `OwnFields`, `CloudMethods`, `CloudFields`). These sets list the open3d point-cloud API only as far as the stages of this package need it.
- Floats are Dafny reals. No arithmetic is done on them.
- Stage-map keys are strings. A schema item or dict entry whose `name` is not a string raises TypeError in the model, where Python would accept any hashable key.
- Positional arguments are dropped. `SingletonMeta.__call__` forwards them to `__new__`, which ignores them, and only the keyword arguments reach the constructor.
- Singleton.Bind: reports the set of unexpected keywords instead of Python's message for the first one.
- Singleton.Bind: requires both paths, and pymeshlab's `filter_script_file`, to be strings, and raises TypeError before anything runs, leaving the shared dict untouched. Python converts the shared dict first and fails only where the value is used: `len` or `os.path.exists` on a non-empty non-path raises, while an empty list, tuple or dict passes as an empty path; a user class whose `clean_up` is falsy never looks at `output_file`; and a pymeshlab strategy with a non-string script and no point cloud is built, and fails only inside `poisson_mesh` (pymeshlab_surface.py:133).
- Registry.Lower: lowers ASCII capitals only. Python's `str.lower()` also folds other scripts.
- Registry.Resolve: the message of the "not registered" TypeError carries the method type as a value; the rendering of a non-string value with `str()` is not modelled. `NotRegisteredMessage` states the message for a string.
- Singleton.SingletonCache.Call: the set of existing files is a parameter that no call updates: a file removed by clean-up, in a construction that succeeds or fails, still counts as existing for later calls. The log of a failed construction is dropped with the instance.
- Open3d.ApplyStage, PyMeshlab.MeshlabApply: every library call succeeds: the cloud's methods (`estimate_normals` and the rest), `create_from_point_cloud_poisson`, the pymeshlab filters and `save_current_mesh` never raise, and a cloud method leaves the symbolic cloud as it was. Only the success of the open3d mesh write is a parameter. Open3d.LaterDefaultRun and PyMeshlab.SharedTableAfterOpen3d state success only because of this.
- Open3d.CallOwn: a stage named after a strategy method other than `estimate_normals` (for instance `load_file`) is logged as a call of that method, and its effect on the strategy is not modelled.
- The `print` calls in open3d's `load_file` (open3d_surface.py:67 and :74) are console output and are left out.
- Singleton.ConstructUser: a user class's own `load_file` is logged as an event; its effect is unknown.
- `surface.poisson(json_filters=...)` in tests/surface_reconstruction_test.py calls a method that no file of the package defines.
- The batch_visualization scripts, setup.py and `__init__.py` are not part of this model.
