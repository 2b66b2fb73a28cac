/**
 * surface_reconstruction/surface_reconstruction.py: the table from
 * method-type name to strategy class, how a call's `method_type` is
 * resolved against it, and how a user's class is registered under a key
 * derived from its name.
 */
module Registry {
  import opened Values
  import opened Parameters

  /**
   * A strategy class. Classes are compared by identity, so a user class
   * carries an identity of its own besides its `__name__` and its
   * `parameters` schema (the base class's empty one unless it declares one).
   */
  datatype StrategyClass =
    | Open3dSurfaceClass
    | PyMeshlabSurfaceClass
    | UserClass(id: nat, name: string, parameters: Schema)

  /** `cls.__name__`. */
  function ClassName(c: StrategyClass): string
  {
    match c
    case Open3dSurfaceClass => "Open3dSurface"
    case PyMeshlabSurfaceClass => "PyMeshlabSurface"
    case UserClass(_, name, _) => name
  }

  /** `SurfaceReconstruction._types` as the class body defines it. */
  const InitialTypes: map<string, StrategyClass> :=
    map["pymeshlab" := PyMeshlabSurfaceClass, "open3d" := Open3dSurfaceClass, "default" := Open3dSurfaceClass]

  // ---------------------------------------------------------------------------
  // Resolving a method type
  // ---------------------------------------------------------------------------

  /** A value Python can hash, and so look up in a dict: lists and dicts cannot, nor tuples holding them. */
  predicate Hashable(v: Value)
  {
    match v
    case List(_) => false
    case Dict(_) => false
    case Tuple(items) => forall k | 0 <= k < |items| :: Hashable(items[k])
    case _ => true
  }

  /** The method type looked up: `kwargs.get('method_type')`, replaced by `'default'` when falsy and `default` is registered. */
  function MethodType(types: map<string, StrategyClass>, kwargs: map<string, Value>): (methodType: Value)
    ensures "method_type" in kwargs && Truthy(kwargs["method_type"]) ==> methodType == kwargs["method_type"]
    ensures !("method_type" in kwargs && Truthy(kwargs["method_type"])) && "default" in types ==> methodType == Str("default")
    ensures !("method_type" in kwargs && Truthy(kwargs["method_type"])) && "default" !in types ==>
              methodType == if "method_type" in kwargs then kwargs["method_type"] else NoneValue
  {
    var methodType := if "method_type" in kwargs then kwargs["method_type"] else NoneValue;
    if !Truthy(methodType) && "default" in types then Str("default") else methodType
  }

  /**
   * `SurfaceReconstruction.__new__(**kwargs)`: the registered class, or
   * TypeError for a method type that is not a key (the dict's keys are all
   * strings), or for one that cannot be hashed.
   */
  function Resolve(types: map<string, StrategyClass>, kwargs: map<string, Value>): (r: Result<StrategyClass>)
    ensures var methodType := MethodType(types, kwargs);
      && (r.Success? <==> methodType.Str? && methodType.s in types)
      && (r.Success? ==> r.value == types[methodType.s])
      && (r.Failure? && Hashable(methodType) ==> r.error == TypeError(NotRegistered(methodType)))
      && (r.Failure? && !Hashable(methodType) ==> r.error == TypeError(Unhashable(methodType)))
  {
    var methodType := MethodType(types, kwargs);
    if !Hashable(methodType) then Failure(TypeError(Unhashable(methodType)))
    else if methodType.Str? && methodType.s in types then Success(types[methodType.s])
    else Failure(TypeError(NotRegistered(methodType)))
  }

  /** A registered, non-empty name resolves to exactly its class. */
  lemma ResolveRegistered(types: map<string, StrategyClass>, kwargs: map<string, Value>, name: string)
    requires "method_type" in kwargs && kwargs["method_type"] == Str(name) && name != "" && name in types
    ensures Resolve(types, kwargs) == Success(types[name])
  {
  }

  /** A missing or falsy method type resolves to the `default` class when there is one. */
  lemma ResolveDefault(types: map<string, StrategyClass>, kwargs: map<string, Value>)
    requires "method_type" !in kwargs || !Truthy(kwargs["method_type"])
    requires "default" in types
    ensures Resolve(types, kwargs) == Success(types["default"])
  {
  }

  /** An unregistered name raises TypeError, and so does a missing method type when there is no `default`. */
  lemma ResolveUnregistered(types: map<string, StrategyClass>, kwargs: map<string, Value>)
    requires "method_type" in kwargs ==> kwargs["method_type"].Str? && kwargs["method_type"].s !in types
    requires "method_type" !in kwargs || kwargs["method_type"] == Str("") ==> "default" !in types
    ensures Resolve(types, kwargs) == Failure(TypeError(NotRegistered(MethodType(types, kwargs))))
  {
  }

  /** A truthy method type that cannot be hashed (a non-empty list or dict) raises TypeError for that. */
  lemma ResolveUnhashable(types: map<string, StrategyClass>, kwargs: map<string, Value>)
    requires "method_type" in kwargs && Truthy(kwargs["method_type"]) && !Hashable(kwargs["method_type"])
    ensures Resolve(types, kwargs) == Failure(TypeError(Unhashable(kwargs["method_type"])))
  {
  }

  /** Out of the box, `pymeshlab` and `open3d` give their classes and no method type gives open3d. */
  lemma InitialResolution(kwargs: map<string, Value>)
    ensures Resolve(InitialTypes, map["method_type" := Str("pymeshlab")]) == Success(PyMeshlabSurfaceClass)
    ensures Resolve(InitialTypes, map["method_type" := Str("open3d")]) == Success(Open3dSurfaceClass)
    ensures "method_type" !in kwargs ==> Resolve(InitialTypes, kwargs) == Success(Open3dSurfaceClass)
  {
  }

  /** `part` occurs in `a + part + b` right after `a`. */
  lemma OccursAfter(a: string, part: string, b: string)
    ensures OccursAt(a + part + b, part, |a|)
  {
    assert (a + part + b)[|a|..|a| + |part|] == part;
  }

  /** Each of the three parts `x`, `y`, `z` occurs in the text `p1 + x + p2 + y + p3 + z + p4`. */
  lemma ThreeParts(p1: string, x: string, p2: string, y: string, p3: string, z: string, p4: string)
    ensures var text := p1 + x + p2 + y + p3 + z + p4;
      Contains(text, x) && Contains(text, y) && Contains(text, z)
  {
    var text := p1 + x + p2 + y + p3 + z + p4;
    OccursAfter(p1, x, p2 + y + p3 + z + p4);
    assert text == p1 + x + (p2 + y + p3 + z + p4);
    OccursAfter(p1 + x + p2, y, p3 + z + p4);
    assert text == p1 + x + p2 + y + (p3 + z + p4);
    OccursAfter(p1 + x + p2 + y + p3, z, p4);
  }

  /**
   * The text of the TypeError for an unregistered method type whose text is
   * `methodType`: it names the method type and the way to register one.
   */
  function NotRegisteredMessage(methodType: string): (msg: string)
    ensures Contains(msg, methodType) && Contains(msg, "was not registered")
    ensures Contains(msg, "SurfaceReconstruction.register_type()")
  {
    var opening := "The method type \"";
    var notRegistered := "was not registered";
    var use := "\n              Use ";
    var registerType := "SurfaceReconstruction.register_type()";
    var closing := " to register this type";
    ThreeParts(opening, methodType, "\" ", notRegistered, use, registerType, closing);
    opening + methodType + "\" " + notRegistered + use + registerType + closing
  }

  // ---------------------------------------------------------------------------
  // The key a class is registered under
  // ---------------------------------------------------------------------------

  /** `s.replace(part, '')`: every occurrence of `part`, scanned left to right without overlaps, removed. */
  function RemoveAll(s: string, part: string): (r: string)
    requires part != ""
    ensures |r| <= |s|
    decreases |s|
  {
    if |s| < |part| then s
    else if s[..|part|] == part then RemoveAll(s[|part|..], part)
    else [s[0]] + RemoveAll(s[1..], part)
  }

  /** A string in which `part` does not occur is left as it is. */
  lemma {:induction false} RemoveAllAbsent(s: string, part: string)
    requires part != "" && !Contains(s, part)
    ensures RemoveAll(s, part) == s
    decreases |s|
  {
    if |s| >= |part| {
      assert !OccursAt(s, part, 0);
      assert s[..|part|] != part;
      forall i | OccursAt(s[1..], part, i) ensures false {
        assert s[1..][i..i + |part|] == s[i + 1..i + 1 + |part|];
        assert OccursAt(s, part, i + 1);
      }
      RemoveAllAbsent(s[1..], part);
    }
  }

  /** An ASCII capital letter. */
  predicate IsUpper(c: char) {
    'A' <= c <= 'Z'
  }

  /** `s.lower()` on ASCII letters. */
  function Lower(s: string): (r: string)
    ensures |r| == |s|
    ensures forall k | 0 <= k < |s| :: r[k] == if IsUpper(s[k]) then (s[k] as int + 32) as char else s[k]
  {
    seq(|s|, k requires 0 <= k < |s| => if IsUpper(s[k]) then (s[k] as int + 32) as char else s[k])
  }

  /** Lowering leaves no capital letter, lowering again changes nothing, and a name without capitals is its own lowering. */
  lemma LowerLowers(s: string)
    ensures forall k | 0 <= k < |s| :: !IsUpper(Lower(s)[k])
    ensures Lower(Lower(s)) == Lower(s)
    ensures (forall k | 0 <= k < |s| :: !IsUpper(s[k])) ==> Lower(s) == s
  {
  }

  /** `type_cls.__name__.replace('Surface', '').lower()`. */
  function Key(c: StrategyClass): string
  {
    Lower(RemoveAll(ClassName(c), "Surface"))
  }

  /** An occurrence of `part` at the start is removed, and the scan goes on after it. */
  lemma RemoveAllLeading(part: string, b: string)
    requires part != ""
    ensures RemoveAll(part + b, part) == RemoveAll(b, part)
  {
    assert (part + b)[..|part|] == part;
    assert (part + b)[|part|..] == b;
  }

  /** No occurrence of `part` starts inside `a`: then `a` is kept as it is, and only `b` is scanned. */
  lemma {:induction false} RemoveAllPrefix(a: string, b: string, part: string)
    requires part != ""
    requires forall i | 0 <= i < |a| :: !OccursAt(a + b, part, i)
    ensures RemoveAll(a + b, part) == a + RemoveAll(b, part)
    decreases |a|
  {
    if a == [] {
      assert a + b == b;
    } else {
      var s := a + b;
      assert !OccursAt(s, part, 0);
      if |s| < |part| {
        assert RemoveAll(b, part) == b;
      } else {
        assert s[..|part|] != part;
        assert s[1..] == a[1..] + b;
        forall i | 0 <= i < |a[1..]| ensures !OccursAt(a[1..] + b, part, i) {
          if OccursAt(a[1..] + b, part, i) {
            assert (a[1..] + b)[i..i + |part|] == s[i + 1..i + 1 + |part|];
            assert OccursAt(s, part, i + 1);
          }
        }
        RemoveAllPrefix(a[1..], b, part);
        assert [a[0]] + a[1..] == a;
      }
    }
  }

  /** When no letter of `stem` is the first letter of `part`, no occurrence of `part` starts inside `stem`. */
  lemma NoOccurrenceInStem(stem: string, part: string)
    requires part != ""
    requires forall k | 0 <= k < |stem| :: stem[k] != part[0]
    ensures forall i | 0 <= i < |stem| :: !OccursAt(stem + part, part, i)
  {
    forall i | 0 <= i < |stem| ensures !OccursAt(stem + part, part, i) {
      if i + |part| <= |stem + part| {
        assert (stem + part)[i..i + |part|][0] == stem[i];
      }
    }
  }

  /** A name that ends in `part`, with no other occurrence starting before it, loses exactly that ending. */
  lemma RemoveAllTrailing(stem: string, part: string)
    requires part != ""
    requires forall i | 0 <= i < |stem| :: !OccursAt(stem + part, part, i)
    ensures RemoveAll(stem + part, part) == stem
  {
    RemoveAllPrefix(stem, part, part);
    RemoveAllLeading(part, "");
    assert part + "" == part;
  }

  /**
   * `str.replace` makes a single pass: removing the occurrence in the middle
   * of `SurSurfaceface` joins its two halves into a new `Surface`, which stays.
   */
  lemma RemoveAllSinglePass()
    ensures RemoveAll("SurSurfaceface", "Surface") == "Surface"
    ensures Contains(RemoveAll("SurSurfaceface", "Surface"), "Surface")
  {
    var part, s := "Surface", "SurSurfaceface";
    assert s[0..7][3] != part[3];
    assert s[1..8][0] != part[0];
    assert s[2..9][0] != part[0];
    assert s == "Sur" + (part + "face");
    RemoveAllPrefix("Sur", part + "face", part);
    RemoveAllLeading(part, "face");
    assert OccursAt(part, part, 0);
  }

  /**
   * A class named `stem + "Surface"`, where no occurrence of "Surface" starts
   * inside `stem`, is registered under the lowered `stem`.
   */
  lemma KeyOfSurfaceName(c: StrategyClass, stem: string, key: string)
    requires ClassName(c) == stem + "Surface"
    requires forall i | 0 <= i < |stem| :: !OccursAt(stem + "Surface", "Surface", i)
    requires Lower(stem) == key
    ensures Key(c) == key
  {
    RemoveAllTrailing(stem, "Surface");
  }

  /** A class named `OtherLibrarySurface` is registered as `otherlibrary`. */
  lemma OtherLibraryKey(c: StrategyClass)
    requires ClassName(c) == "OtherLibrarySurface"
    ensures Key(c) == "otherlibrary"
  {
    NoOccurrenceInStem("OtherLibrary", "Surface");
    KeyOfSurfaceName(c, "OtherLibrary", "otherlibrary");
  }

  /** `Open3dSurface` is registered as `open3d`, the key it already has, so registering it again is refused. */
  lemma Open3dKey(c: StrategyClass)
    requires c.Open3dSurfaceClass?
    ensures Key(c) == "open3d"
    ensures Key(c) in InitialTypes && InitialTypes[Key(c)] == c
  {
    NoOccurrenceInStem("Open3d", "Surface");
    KeyOfSurfaceName(c, "Open3d", "open3d");
  }

  /** `PyMeshlabSurface` is registered as `pymeshlab`, the key it already has, so registering it again is refused. */
  lemma PyMeshlabKey(c: StrategyClass)
    requires c.PyMeshlabSurfaceClass?
    ensures Key(c) == "pymeshlab"
    ensures Key(c) in InitialTypes && InitialTypes[Key(c)] == c
  {
    NoOccurrenceInStem("PyMeshlab", "Surface");
    KeyOfSurfaceName(c, "PyMeshlab", "pymeshlab");
  }

  /** `Warning(f'The type "{type_cls.__name__}" was registered!')`. */
  function AlreadyRegistered(c: StrategyClass): Error
  {
    Warning("The type \"" + ClassName(c) + "\" was registered!")
  }

  /** Registering, then resolving the class's key, gives that class back. */
  lemma RegisterThenResolve(types: map<string, StrategyClass>, c: StrategyClass, kwargs: map<string, Value>)
    requires Key(c) !in types && Key(c) != ""
    requires "method_type" in kwargs && kwargs["method_type"] == Str(Key(c))
    ensures Resolve(types[Key(c) := c], kwargs) == Success(c)
  {
  }

  // ---------------------------------------------------------------------------
  // The class-level table
  // ---------------------------------------------------------------------------

  /** `SurfaceReconstruction` and its `_types` dict. */
  class SurfaceReconstruction {
    var types: map<string, StrategyClass>

    constructor ()
      ensures types == InitialTypes
    {
      types := InitialTypes;
    }

    /** `register_type(type_cls)`: add the class under its key, unless the key is taken. */
    method RegisterType(c: StrategyClass) returns (err: Option<Error>)
      modifies this
      ensures Key(c) !in old(types) ==> err == None && types == old(types)[Key(c) := c]
      ensures Key(c) in old(types) ==> err == Some(AlreadyRegistered(c)) && types == old(types)
    {
      var name := Lower(RemoveAll(ClassName(c), "Surface"));
      if name !in types {
        types := types[name := c];
        err := None;
      } else {
        err := Some(AlreadyRegistered(c));
      }
    }

    /** `SurfaceReconstruction.__new__(**kwargs)` on the current table. */
    function New(kwargs: map<string, Value>): Result<StrategyClass>
      reads this
    {
      Resolve(types, kwargs)
    }
  }
}
