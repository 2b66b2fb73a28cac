/**
 * The parameter layer of surface_reconstruction/surface_strategy.py.
 *
 * Every strategy class declares a schema `parameters`: stage name to either a
 * list of `{name, description, value}` items or a dict. `_parameters_convertion`
 * flattens each entry into a stage map (parameter name to value) and writes it
 * into `_parameters_key_values`, ONE dict held by the base class and therefore
 * shared by every strategy. `poisson_filters` merges a call's `filters`
 * overrides into that shared dict, stage by stage in its insertion order, and
 * invokes a callback on every stage whose merged map is non-empty.
 */
module Parameters {
  import opened Values

  /** A class's `parameters` attribute: stage name to schema entry, in insertion order. */
  type Schema = seq<(string, Value)>

  /** One item of a list-valued schema entry: `{'name': ..., 'description': ..., 'value': ...}`. */
  function SchemaItem(name: string, description: string, value: Value): Value
  {
    Dict(map["name" := Str(name), "description" := Str(description), "value" := value])
  }

  // ---------------------------------------------------------------------------
  // Converting one schema entry
  // ---------------------------------------------------------------------------

  /** `(item['name'], item['value'])` for one item of a list-valued entry. */
  function ItemPair(item: Value): Result<(string, Value)>
  {
    if !item.Dict? then Failure(TypeError(NotSubscriptable(item)))
    else if "name" !in item.entries then Failure(KeyError("name"))
    else if "value" !in item.entries then Failure(KeyError("value"))
    else if !item.entries["name"].Str? then Failure(TypeError(NonStringName(item.entries["name"])))
    else Success((item.entries["name"].s, item.entries["value"]))
  }

  /** `{item['name']: item['value'] for item in items}`: items are inserted in order, so a later name wins. */
  function ItemsToStage(items: seq<Value>): Result<Stage>
    decreases |items|
  {
    if items == [] then Success(map[])
    else
      var init :- ItemsToStage(items[..|items| - 1]);
      var pair :- ItemPair(items[|items| - 1]);
      Success(init[pair.0 := pair.1])
  }

  /** The stage map one schema entry converts to; `None` for an entry that is neither a list nor a dict (it is skipped). */
  function EntryToStage(entry: Value): Result<Option<Stage>>
  {
    match entry
    case List(items) =>
      var stage :- ItemsToStage(items);
      Success(Some(stage))
    case Dict(d) =>
      if "name" in d && "value" in d then
        if d["name"].Str? then Success(Some(map[d["name"].s := d["value"]]))
        else Failure(TypeError(NonStringName(d["name"])))
      else Success(Some(d))
    case _ => Success(None)
  }

  // ---------------------------------------------------------------------------
  // The shared table, as a value
  // ---------------------------------------------------------------------------

  /** One item of the shared dict: a stage name and its map. */
  type Entry = (string, Stage)

  /** An insertion-ordered dict from stage name to stage map, as its items in order. */
  type Table = seq<Entry>

  /** No stage name occurs twice: what makes a sequence of items a dict. */
  predicate UniqueNames(t: Table) {
    forall i, j | 0 <= i < j < |t| :: t[i].0 != t[j].0
  }

  /** The position of key `name`, if it is one. */
  function Find(t: Table, name: string): (r: Option<nat>)
    ensures r.Some? ==> r.value < |t| && t[r.value].0 == name
    ensures r.None? ==> forall j | 0 <= j < |t| :: t[j].0 != name
  {
    if t == [] then None
    else if t[0].0 == name then Some(0)
    else match Find(t[1..], name)
      case Some(j) => Some(j + 1)
      case None => None
  }

  /** `table.get(name)`. */
  function Lookup(t: Table, name: string): Option<Stage>
  {
    match Find(t, name)
    case Some(j) => Some(t[j].1)
    case None => None
  }

  /** `table[name] = stage`: an existing key keeps its place, a new one goes last. */
  function Assign(t: Table, name: string, stage: Stage): (r: Table)
    requires UniqueNames(t)
    ensures UniqueNames(r)
    ensures |t| <= |r| && forall j | 0 <= j < |t| :: r[j].0 == t[j].0
    ensures Find(t, name).Some? ==> |r| == |t|
  {
    match Find(t, name)
    case Some(j) => t[j := (name, stage)]
    case None => t + [(name, stage)]
  }

  /** A key the table lacks is added last. */
  lemma AssignNew(t: Table, name: string, stage: Stage)
    requires UniqueNames(t) && forall j | 0 <= j < |t| :: t[j].0 != name
    ensures Assign(t, name, stage) == t + [(name, stage)]
  {
  }

  /** A key the table holds at position `j` has its map replaced there. */
  lemma AssignAt(t: Table, name: string, stage: Stage, j: nat)
    requires UniqueNames(t) && j < |t| && t[j].0 == name
    ensures Assign(t, name, stage) == t[j := (name, stage)]
  {
    FindUnique(t, j);
  }

  /** Three assignments in turn, of keys `n1`, `n2` that are new and a key `n3` at position `j`, or also new. */
  lemma AssignThree(t: Table, n1: string, d1: Stage, n2: string, d2: Stage, n3: string, d3: Stage, j: nat)
    requires UniqueNames(t) && n1 != n2 && n1 != n3 && n2 != n3
    requires forall k | 0 <= k < |t| :: t[k].0 != n1 && t[k].0 != n2
    requires j <= |t| && (j < |t| ==> t[j].0 == n3)
    requires forall k | 0 <= k < |t| && k != j :: t[k].0 != n3
    ensures j < |t| ==> Assign(Assign(Assign(t, n1, d1), n2, d2), n3, d3) == (t + [(n1, d1), (n2, d2)])[j := (n3, d3)]
    ensures j == |t| ==> Assign(Assign(Assign(t, n1, d1), n2, d2), n3, d3) == t + [(n1, d1), (n2, d2), (n3, d3)]
  {
    AssignNew(t, n1, d1);
    var t1 := t + [(n1, d1)];
    AssignNew(t1, n2, d2);
    var t2 := t1 + [(n2, d2)];
    assert t2 == t + [(n1, d1), (n2, d2)];
    if j < |t| {
      AssignAt(t2, n3, d3, j);
    } else {
      AssignNew(t2, n3, d3);
      assert t2 + [(n3, d3)] == t + [(n1, d1), (n2, d2), (n3, d3)];
    }
  }

  datatype Conversion = Conversion(table: Table, error: Option<Error>)

  /** The table after `_parameters_convertion` walks `schema`, and the exception that stopped it, if any. */
  function Converted(t: Table, schema: Schema): (c: Conversion)
    requires UniqueNames(t)
    ensures UniqueNames(c.table)
    decreases |schema|
  {
    if schema == [] then Conversion(t, None)
    else
      match EntryToStage(schema[0].1)
      case Failure(e) => Conversion(t, Some(e))
      case Success(None) => Converted(t, schema[1..])
      case Success(Some(stage)) => Converted(Assign(t, schema[0].0, stage), schema[1..])
  }

  /** What a schema writes: each converted stage name with the map of its last entry. */
  function Written(schema: Schema): map<string, Stage>
    decreases |schema|
  {
    if schema == [] then map[]
    else
      var rest := Written(schema[1..]);
      match EntryToStage(schema[0].1)
      case Success(Some(stage)) => map[schema[0].0 := stage] + rest
      case _ => rest
  }

  predicate Names(schema: Schema, k: string) {
    exists i :: 0 <= i < |schema| && schema[i].0 == k
  }

  // ---------------------------------------------------------------------------
  // Merging one stage with the `filters` overrides, and the whole pass
  // ---------------------------------------------------------------------------

  /** `filters[name]`. */
  function Subscript(filters: Value, name: string): Result<Value>
  {
    if !filters.Dict? then Failure(TypeError(NotSubscriptable(filters)))
    else if name !in filters.entries then Failure(KeyError(name))
    else Success(filters.entries[name])
  }

  /**
   * The new map of stage `name` after one iteration of `poisson_filters`:
   * without `filters` it is untouched; a falsy override resets it to `{}`;
   * a dict override is then merged into it with `update`. (The source also
   * tests that the whole table is a non-empty dict before `update`; inside the
   * loop over that table this always holds.)
   */
  function Merged(stage: Stage, params: map<string, Value>, name: string): Result<Stage>
  {
    if "filters" !in params then Success(stage)
    else
      var o :- Subscript(params["filters"], name);
      var reset := if Truthy(o) then stage else map[];
      Success(if o.Dict? then reset + o.entries else reset)
  }

  /** One invocation `callback(name, stage)`. */
  datatype StageCall = StageCall(name: string, args: Stage)

  /**
   * The result of a pass: the table, the callback's state, the callbacks
   * invoked in order (the last one included if it raised) and the exception
   * that stopped the pass, if any.
   */
  datatype Run<S> = Run(table: Table, state: S, calls: seq<StageCall>, error: Option<Error>)

  /**
   * `poisson_filters` from position `i` of the table on: merge each stage in
   * place and call back if its map is non-empty. The callback is a state
   * transformer: the strategies' callbacks change only the strategy's own
   * fields, never the table.
   */
  function PassFrom<S>(t: Table, params: map<string, Value>, i: nat, state: S, calls: seq<StageCall>,
                       callback: (S, string, Stage) -> Result<S>): (run: Run<S>)
    requires i <= |t|
    ensures |run.table| == |t| && forall j | 0 <= j < |t| :: run.table[j].0 == t[j].0
    decreases |t| - i
  {
    if i == |t| then Run(t, state, calls, None)
    else
      var name := t[i].0;
      match Merged(t[i].1, params, name)
      case Failure(e) => Run(t, state, calls, Some(e))
      case Success(stage) =>
        var t' := t[i := (name, stage)];
        if stage == map[] then PassFrom(t', params, i + 1, state, calls, callback)
        else
          var calls' := calls + [StageCall(name, stage)];
          match callback(state, name, stage)
          case Failure(e) => Run(t', state, calls', Some(e))
          case Success(state') => PassFrom(t', params, i + 1, state', calls', callback)
  }

  /** `poisson_filters(callback, **params)` over the whole table. */
  function FilterPass<S>(t: Table, params: map<string, Value>, state: S,
                         callback: (S, string, Stage) -> Result<S>): Run<S>
  {
    PassFrom(t, params, 0, state, [], callback)
  }

  /** Reference definition: one call per item whose map is non-empty, in table order. */
  function NonEmptyStages(t: Table): seq<StageCall>
  {
    if t == [] then []
    else (if t[0].1 != map[] then [StageCall(t[0].0, t[0].1)] else []) + NonEmptyStages(t[1..])
  }

  /** Reference definition: the callbacks made on `calls` in turn, stopping at the first that raises. */
  function Chain<S>(state: S, calls: seq<StageCall>, callback: (S, string, Stage) -> Result<S>): Result<S>
    decreases |calls|
  {
    if calls == [] then Success(state)
    else
      var next :- callback(state, calls[0].name, calls[0].args);
      Chain(next, calls[1..], callback)
  }

  ghost predicate NeverFails<S(!new)>(callback: (S, string, Stage) -> Result<S>) {
    forall s, n, m :: callback(s, n, m).Success?
  }

  // ---------------------------------------------------------------------------
  // What conversion does
  // ---------------------------------------------------------------------------

  /** Item `j` is the last item of `items` that carries its name. */
  ghost predicate LastNamed(items: seq<Value>, j: int)
    requires 0 <= j < |items|
  {
    && ItemPair(items[j]).Success?
    && forall j' | j < j' < |items| ::
         !(ItemPair(items[j']).Success? && ItemPair(items[j']).value.0 == ItemPair(items[j]).value.0)
  }

  /** A list-valued entry that converts has every item well formed, and every item's name is a parameter of the stage. */
  lemma {:induction false} ItemsToStageItems(items: seq<Value>)
    requires ItemsToStage(items).Success?
    ensures forall j | 0 <= j < |items| :: ItemPair(items[j]).Success?
    ensures forall j | 0 <= j < |items| :: ItemPair(items[j]).value.0 in ItemsToStage(items).value
  {
    if items != [] {
      var n := |items|;
      var init := items[..n - 1];
      ItemsToStageItems(init);
      assert forall j | 0 <= j < n - 1 :: items[j] == init[j];
    }
  }

  /** Every parameter of a converted list-valued entry is the name of one of its items. */
  lemma {:induction false} ItemsToStageKeys(items: seq<Value>)
    requires ItemsToStage(items).Success?
    ensures forall k | k in ItemsToStage(items).value ::
              exists j | 0 <= j < |items| :: ItemPair(items[j]).Success? && ItemPair(items[j]).value.0 == k
  {
    if items != [] {
      var n := |items|;
      var init := items[..n - 1];
      ItemsToStageKeys(init);
      var pair := ItemPair(items[n - 1]).value;
      forall k | k in ItemsToStage(items).value
        ensures exists j | 0 <= j < n :: ItemPair(items[j]).Success? && ItemPair(items[j]).value.0 == k
      {
        if k != pair.0 {
          var j :| 0 <= j < n - 1 && ItemPair(init[j]).Success? && ItemPair(init[j]).value.0 == k;
          assert items[j] == init[j];
        }
      }
    }
  }

  /** When a name repeats in a list-valued entry, the value of its last item is the one kept. */
  lemma {:induction false} ItemsToStageLastWins(items: seq<Value>)
    requires ItemsToStage(items).Success?
    ensures forall j | 0 <= j < |items| && LastNamed(items, j) ::
              && ItemPair(items[j]).value.0 in ItemsToStage(items).value
              && ItemsToStage(items).value[ItemPair(items[j]).value.0] == ItemPair(items[j]).value.1
  {
    ItemsToStageItems(items);
    if items != [] {
      var n := |items|;
      var init := items[..n - 1];
      ItemsToStageLastWins(init);
      var m0 := ItemsToStage(init).value;
      var pair := ItemPair(items[n - 1]).value;
      assert ItemsToStage(items).value == m0[pair.0 := pair.1];
      forall j | 0 <= j < n && LastNamed(items, j)
        ensures ItemsToStage(items).value[ItemPair(items[j]).value.0] == ItemPair(items[j]).value.1
      {
        if j < n - 1 {
          assert items[j] == init[j];
          assert forall j' | j < j' < n - 1 :: items[j'] == init[j'];
          assert LastNamed(init, j);
        }
      }
    }
  }

  /** Converting a schema whose first entry converts to a stage: assign that stage, then convert the rest. */
  lemma ConvertedCons(t: Table, name: string, entry: Value, rest: Schema)
    requires UniqueNames(t) && EntryToStage(entry).Success? && EntryToStage(entry).value.Some?
    ensures Converted(t, [(name, entry)] + rest) == Converted(Assign(t, name, EntryToStage(entry).value.value), rest)
  {
    assert ([(name, entry)] + rest)[0] == (name, entry) && ([(name, entry)] + rest)[1..] == rest;
  }

  /** A schema item written out as its name, description and value. */
  type ItemSpec = (string, string, Value)

  /** The list-valued schema entry made of the given items, in order. */
  function ItemList(specs: seq<ItemSpec>): (items: seq<Value>)
    ensures |items| == |specs|
    decreases |specs|
  {
    if specs == [] then []
    else
      var last := specs[|specs| - 1];
      ItemList(specs[..|specs| - 1]) + [SchemaItem(last.0, last.1, last.2)]
  }

  /** Reference definition: each item's name set to its value, in order, so that a later name wins. */
  function Defaults(specs: seq<ItemSpec>): Stage
    decreases |specs|
  {
    if specs == [] then map[]
    else Defaults(specs[..|specs| - 1])[specs[|specs| - 1].0 := specs[|specs| - 1].2]
  }

  /** A list-valued entry written out as items converts to the items' names and values. */
  lemma {:induction false} ItemListConverts(specs: seq<ItemSpec>)
    ensures ItemsToStage(ItemList(specs)) == Success(Defaults(specs))
    decreases |specs|
  {
    if specs != [] {
      var n := |specs|;
      var last := specs[n - 1];
      ItemListConverts(specs[..n - 1]);
      ItemsToStageSnoc(ItemList(specs[..n - 1]), last.0, last.1, last.2);
    }
  }

  /** Converting a schema whose first entry is written out as items: assign the items' stage, then convert the rest. */
  lemma ConvertedItemList(t: Table, name: string, specs: seq<ItemSpec>, rest: Schema)
    requires UniqueNames(t)
    ensures Converted(t, [(name, List(ItemList(specs)))] + rest) == Converted(Assign(t, name, Defaults(specs)), rest)
  {
    ItemListConverts(specs);
    ConvertedCons(t, name, List(ItemList(specs)), rest);
  }

  /** Appending a well-formed item to a list-valued entry sets that item's name to its value. */
  lemma ItemsToStageSnoc(items: seq<Value>, name: string, description: string, value: Value)
    requires ItemsToStage(items).Success?
    ensures ItemsToStage(items + [SchemaItem(name, description, value)]) == Success(ItemsToStage(items).value[name := value])
  {
    assert (items + [SchemaItem(name, description, value)])[..|items|] == items;
  }

  /** A list-valued entry fails exactly when one of its items does, with the first failing item's error. */
  lemma {:induction false} ItemsToStageFails(items: seq<Value>)
    ensures ItemsToStage(items).Failure? <==> exists j | 0 <= j < |items| :: ItemPair(items[j]).Failure?
    ensures ItemsToStage(items).Failure? ==>
              exists j | 0 <= j < |items| ::
                && ItemPair(items[j]) == Failure(ItemsToStage(items).error)
                && forall j' | 0 <= j' < j :: ItemPair(items[j']).Success?
  {
    if items != [] {
      var n := |items|;
      var init := items[..n - 1];
      ItemsToStageFails(init);
      assert forall j | 0 <= j < n - 1 :: items[j] == init[j];
      if ItemsToStage(init).Success? && ItemPair(items[n - 1]).Failure? {
        assert forall j' | 0 <= j' < n - 1 :: ItemPair(items[j']).Success?;
      }
    }
  }

  /** A dict-valued entry with both `name` and `value` becomes a one-entry map; any other dict is copied as it is. */
  lemma DictEntryToStage(d: map<string, Value>)
    ensures "name" in d && "value" in d && d["name"].Str? ==>
              EntryToStage(Dict(d)) == Success(Some(map[d["name"].s := d["value"]]))
    ensures !("name" in d && "value" in d) ==> EntryToStage(Dict(d)) == Success(Some(d))
  {
  }

  /** Every name in `Written(schema)` is a stage name of the schema. */
  lemma {:induction false} WrittenNames(schema: Schema)
    ensures forall k | k in Written(schema) :: Names(schema, k)
  {
    if schema != [] {
      WrittenNames(schema[1..]);
      forall k | k in Written(schema) ensures Names(schema, k) {
        if k != schema[0].0 {
          assert k in Written(schema[1..]);
          var i :| 0 <= i < |schema[1..]| && schema[1..][i].0 == k;
          assert schema[i + 1].0 == k;
        }
      }
    }
  }

  /** In a dict each key sits at one position, and `Find` returns it. */
  lemma FindUnique(t: Table, j: nat)
    requires UniqueNames(t) && j < |t|
    ensures Find(t, t[j].0) == Some(j)
  {
  }

  /** Assigning a key overwrites its map, or adds it, and leaves every other key's map alone. */
  lemma AssignLookup(t: Table, name: string, stage: Stage, k: string)
    requires UniqueNames(t)
    ensures Lookup(Assign(t, name, stage), k) == if k == name then Some(stage) else Lookup(t, k)
  {
    var r := Assign(t, name, stage);
    match Find(r, k)
    case Some(j) =>
      FindUnique(r, j);
      if k != name {
        FindUnique(t, j);
      }
    case None =>
      if Find(t, name).None? {
        assert r[|t|].0 == name;
      }
  }

  /**
   * A conversion that raises nothing overlays the table with what the schema
   * writes, and adds no key when every written stage is already present.
   */
  lemma {:induction false} ConvertedClosedForm(t: Table, schema: Schema)
    requires UniqueNames(t) && Converted(t, schema).error == None
    ensures forall k :: Lookup(Converted(t, schema).table, k)
                          == if k in Written(schema) then Some(Written(schema)[k]) else Lookup(t, k)
    ensures (forall k | k in Written(schema) :: Find(t, k).Some?) ==> |Converted(t, schema).table| == |t|
    decreases |schema|
  {
    if schema != [] {
      match EntryToStage(schema[0].1)
      case Success(None) =>
        ConvertedClosedForm(t, schema[1..]);
      case Success(Some(stage)) =>
        var name := schema[0].0;
        var t1 := Assign(t, name, stage);
        ConvertedClosedForm(t1, schema[1..]);
        forall k ensures Lookup(t1, k) == if k == name then Some(stage) else Lookup(t, k) {
          AssignLookup(t, name, stage, k);
        }
        if forall k | k in Written(schema) :: Find(t, k).Some? {
          forall k | k in Written(schema[1..]) ensures Find(t1, k).Some? {
            AssignLookup(t, name, stage, k);
          }
        }
    }
  }

  /** A conversion raises, or not, whatever the table holds: the error comes from the schema alone. */
  lemma {:induction false} ConvertedErrorIndependent(t: Table, u: Table, schema: Schema)
    requires UniqueNames(t) && UniqueNames(u)
    ensures Converted(t, schema).error == Converted(u, schema).error
    decreases |schema|
  {
    if schema != [] {
      match EntryToStage(schema[0].1)
      case Failure(_) =>
      case Success(None) =>
        ConvertedErrorIndependent(t, u, schema[1..]);
      case Success(Some(stage)) =>
        ConvertedErrorIndependent(Assign(t, schema[0].0, stage), Assign(u, schema[0].0, stage), schema[1..]);
    }
  }

  /**
   * Conversion writes only the stages its schema names: every other key
   * keeps its map, or stays absent, and the old keys keep their order, new
   * ones following them. This holds also when a schema entry raises halfway.
   */
  lemma {:induction false} ConvertedFrame(t: Table, schema: Schema)
    requires UniqueNames(t)
    ensures forall k | !Names(schema, k) :: Lookup(Converted(t, schema).table, k) == Lookup(t, k)
    ensures |t| <= |Converted(t, schema).table|
    ensures forall j | 0 <= j < |t| :: Converted(t, schema).table[j].0 == t[j].0
    decreases |schema|
  {
    if schema != [] {
      var rest := schema[1..];
      assert forall k | Names(rest, k) :: Names(schema, k) by {
        forall k | Names(rest, k) ensures Names(schema, k) {
          var i :| 0 <= i < |rest| && rest[i].0 == k;
          assert schema[i + 1].0 == k;
        }
      }
      assert Names(schema, schema[0].0);
      match EntryToStage(schema[0].1)
      case Failure(_) =>
      case Success(None) =>
        ConvertedFrame(t, rest);
      case Success(Some(stage)) =>
        ConvertedFrame(Assign(t, schema[0].0, stage), rest);
        forall k | !Names(schema, k) ensures Lookup(Assign(t, schema[0].0, stage), k) == Lookup(t, k) {
          AssignLookup(t, schema[0].0, stage, k);
        }
    }
  }

  /** Two dicts with the same keys in the same order and the same lookups are the same dict. */
  lemma SameTable(t: Table, u: Table)
    requires UniqueNames(t) && UniqueNames(u)
    requires |t| == |u| && (forall j | 0 <= j < |t| :: t[j].0 == u[j].0)
    requires forall k :: Lookup(t, k) == Lookup(u, k)
    ensures t == u
  {
    forall j | 0 <= j < |t| ensures t[j] == u[j] {
      FindUnique(t, j);
      FindUnique(u, j);
      assert Lookup(t, t[j].0) == Lookup(u, t[j].0);
    }
  }

  /** Converting the same schema a second time changes nothing. */
  lemma ConvertedIdempotent(t: Table, schema: Schema)
    requires UniqueNames(t) && Converted(t, schema).error == None
    ensures Converted(Converted(t, schema).table, schema) == Converted(t, schema)
  {
    var c := Converted(t, schema);
    ConvertedClosedForm(t, schema);
    ConvertedErrorIndependent(t, c.table, schema);
    ConvertedClosedForm(c.table, schema);
    ConvertedFrame(c.table, schema);
    forall k | k in Written(schema) ensures Find(c.table, k).Some? {
      assert Lookup(c.table, k).Some?;
    }
    SameTable(Converted(c.table, schema).table, c.table);
  }

  // ---------------------------------------------------------------------------
  // What poisson_filters does
  // ---------------------------------------------------------------------------

  /** The pass leaves the items before position `i` alone. */
  lemma {:induction false} PassFromFrame<S>(t: Table, params: map<string, Value>, i: nat, state: S,
                                            calls: seq<StageCall>, callback: (S, string, Stage) -> Result<S>)
    requires i <= |t|
    ensures var run := PassFrom(t, params, i, state, calls, callback);
      forall j | 0 <= j < i :: run.table[j] == t[j]
    decreases |t| - i
  {
    if i < |t| {
      var name := t[i].0;
      var m := Merged(t[i].1, params, name);
      if m.Success? {
        var t' := t[i := (name, m.value)];
        if m.value == map[] {
          PassFromFrame(t', params, i + 1, state, calls, callback);
        } else {
          var r := callback(state, name, m.value);
          if r.Success? {
            PassFromFrame(t', params, i + 1, r.value, calls + [StageCall(name, m.value)], callback);
          }
        }
      }
    }
  }

  /** If the pass raises nothing, every item from position `i` on holds its merged map. */
  lemma {:induction false} PassFromMerged<S>(t: Table, params: map<string, Value>, i: nat, state: S,
                                             calls: seq<StageCall>, callback: (S, string, Stage) -> Result<S>)
    requires i <= |t|
    ensures var run := PassFrom(t, params, i, state, calls, callback);
      run.error == None ==> forall j | i <= j < |t| :: Merged(t[j].1, params, t[j].0) == Success(run.table[j].1)
    decreases |t| - i
  {
    if i < |t| {
      var name := t[i].0;
      var m := Merged(t[i].1, params, name);
      if m.Success? {
        var t' := t[i := (name, m.value)];
        if m.value == map[] {
          PassFromMerged(t', params, i + 1, state, calls, callback);
          PassFromFrame(t', params, i + 1, state, calls, callback);
        } else {
          var r := callback(state, name, m.value);
          if r.Success? {
            PassFromMerged(t', params, i + 1, r.value, calls + [StageCall(name, m.value)], callback);
            PassFromFrame(t', params, i + 1, r.value, calls + [StageCall(name, m.value)], callback);
          }
        }
      }
    }
  }

  /** If the pass raises nothing, the callbacks made are exactly one per non-empty merged item, in table order. */
  lemma {:induction false} PassFromCalls<S>(t: Table, params: map<string, Value>, i: nat, state: S,
                                            calls: seq<StageCall>, callback: (S, string, Stage) -> Result<S>)
    requires i <= |t|
    ensures var run := PassFrom(t, params, i, state, calls, callback);
      run.error == None ==> run.calls == calls + NonEmptyStages(run.table[i..])
    decreases |t| - i
  {
    var run := PassFrom(t, params, i, state, calls, callback);
    if i == |t| {
      assert run.table[i..] == [];
    } else {
      assert run.table[i..][0] == run.table[i] && run.table[i..][1..] == run.table[i + 1..];
      var name := t[i].0;
      var m := Merged(t[i].1, params, name);
      if m.Success? {
        var t' := t[i := (name, m.value)];
        if m.value == map[] {
          PassFromCalls(t', params, i + 1, state, calls, callback);
          PassFromFrame(t', params, i + 1, state, calls, callback);
        } else {
          var r := callback(state, name, m.value);
          if r.Success? {
            PassFromCalls(t', params, i + 1, r.value, calls + [StageCall(name, m.value)], callback);
            PassFromFrame(t', params, i + 1, r.value, calls + [StageCall(name, m.value)], callback);
          }
        }
      }
    }
  }

  /** With a callback that never raises, the pass raises nothing when every stage from `i` on merges. */
  lemma {:induction false} PassFromNoError<S(!new)>(t: Table, params: map<string, Value>, i: nat, state: S,
                                                    calls: seq<StageCall>, callback: (S, string, Stage) -> Result<S>)
    requires i <= |t| && NeverFails(callback)
    requires forall j | i <= j < |t| :: Merged(t[j].1, params, t[j].0).Success?
    ensures PassFrom(t, params, i, state, calls, callback).error == None
    decreases |t| - i
  {
    if i < |t| {
      var name := t[i].0;
      var m := Merged(t[i].1, params, name).value;
      var t' := t[i := (name, m)];
      var r := callback(state, name, m);
      assert r.Success?;
      PassFromNoError(t', params, i + 1, if m == map[] then state else r.value,
                      if m == map[] then calls else calls + [StageCall(name, m)], callback);
    }
  }

  /**
   * The calls of `NonEmptyStages`: each passes the name and the non-empty map
   * of an item of the table, and every item with a non-empty map has one.
   */
  lemma {:induction false} NonEmptyStagesMeaning(t: Table)
    ensures forall c | c in NonEmptyStages(t) :: (c.name, c.args) in t && c.args != map[]
    ensures forall j | 0 <= j < |t| && t[j].1 != map[] :: StageCall(t[j].0, t[j].1) in NonEmptyStages(t)
  {
    if t != [] {
      NonEmptyStagesMeaning(t[1..]);
      forall j | 0 < j < |t| && t[j].1 != map[] ensures StageCall(t[j].0, t[j].1) in NonEmptyStages(t) {
        assert t[j] == t[1..][j - 1];
      }
    }
  }

  /**
   * `poisson_filters` keeps the table's keys and their order; if it raises
   * nothing, every stage now holds its merged map, and the callback was
   * invoked once for each stage whose merged map is non-empty, in table
   * order, with that map.
   */
  lemma FilterPassMeaning<S>(t: Table, params: map<string, Value>, state: S,
                             callback: (S, string, Stage) -> Result<S>)
    ensures var run := FilterPass(t, params, state, callback);
      |run.table| == |t| && forall j | 0 <= j < |t| :: run.table[j].0 == t[j].0
    ensures var run := FilterPass(t, params, state, callback);
      run.error == None ==> forall j | 0 <= j < |t| :: Merged(t[j].1, params, t[j].0) == Success(run.table[j].1)
    ensures var run := FilterPass(t, params, state, callback);
      run.error == None ==> run.calls == NonEmptyStages(run.table)
  {
    PassFromMerged(t, params, 0, state, [], callback);
    PassFromCalls(t, params, 0, state, [], callback);
    var run := FilterPass(t, params, state, callback);
    assert run.table[0..] == run.table;
  }

  /** The pass from position `i` on only adds calls after those already made. */
  lemma {:induction false} PassFromExtends<S>(t: Table, params: map<string, Value>, i: nat, state: S,
                                              calls: seq<StageCall>, callback: (S, string, Stage) -> Result<S>)
    requires i <= |t|
    ensures var run := PassFrom(t, params, i, state, calls, callback);
      |calls| <= |run.calls| && run.calls[..|calls|] == calls
    decreases |t| - i
  {
    if i < |t| {
      var name := t[i].0;
      var m := Merged(t[i].1, params, name);
      if m.Success? {
        var t' := t[i := (name, m.value)];
        if m.value == map[] {
          PassFromExtends(t', params, i + 1, state, calls, callback);
        } else {
          var call := StageCall(name, m.value);
          var r := callback(state, name, m.value);
          if r.Success? {
            var run := PassFrom(t', params, i + 1, r.value, calls + [call], callback);
            PassFromExtends(t', params, i + 1, r.value, calls + [call], callback);
            assert run.calls[..|calls|] == (calls + [call])[..|calls|];
          }
        }
      }
    }
  }

  /**
   * With a callback that never raises, the state after the pass from
   * position `i` on is the one the calls it adds lead to in turn.
   */
  lemma {:induction false} PassFromState<S(!new)>(t: Table, params: map<string, Value>, i: nat, state: S,
                                                  calls: seq<StageCall>, callback: (S, string, Stage) -> Result<S>)
    requires i <= |t| && NeverFails(callback)
    ensures var run := PassFrom(t, params, i, state, calls, callback);
      |calls| <= |run.calls| && Chain(state, run.calls[|calls|..], callback) == Success(run.state)
    decreases |t| - i, 1
  {
    PassFromExtends(t, params, i, state, calls, callback);
    var run := PassFrom(t, params, i, state, calls, callback);
    if i == |t| {
      assert run.calls[|calls|..] == [];
    } else {
      var name := t[i].0;
      var m := Merged(t[i].1, params, name);
      if m.Failure? {
        assert run == Run(t, state, calls, Some(m.error));
        assert run.calls[|calls|..] == [];
      } else if m.value == map[] {
        var t' := t[i := (name, m.value)];
        assert run == PassFrom(t', params, i + 1, state, calls, callback);
        PassFromState(t', params, i + 1, state, calls, callback);
      } else {
        PassFromStateCall(t, params, i, state, calls, callback);
      }
    }
  }

  /** The step of `PassFromState` at a stage that is called back. */
  lemma {:induction false} PassFromStateCall<S(!new)>(t: Table, params: map<string, Value>, i: nat, state: S,
                                                      calls: seq<StageCall>, callback: (S, string, Stage) -> Result<S>)
    requires i < |t| && NeverFails(callback)
    requires Merged(t[i].1, params, t[i].0).Success? && Merged(t[i].1, params, t[i].0).value != map[]
    ensures var run := PassFrom(t, params, i, state, calls, callback);
      |calls| <= |run.calls| && Chain(state, run.calls[|calls|..], callback) == Success(run.state)
    decreases |t| - i, 0
  {
    var name := t[i].0;
    var m := Merged(t[i].1, params, name).value;
    var t' := t[i := (name, m)];
    var call := StageCall(name, m);
    var next := callback(state, name, m).value;
    var rest := PassFrom(t', params, i + 1, next, calls + [call], callback);
    assert PassFrom(t, params, i, state, calls, callback) == rest;
    PassFromState(t', params, i + 1, next, calls + [call], callback);
    PassFromExtends(t', params, i + 1, next, calls + [call], callback);
    var later := rest.calls[|calls| + 1..];
    assert rest.calls[|calls|..] == [call] + later;
    ChainCons(state, call, later, callback);
  }

  /** The chain on a call followed by others: that call, then the rest unless it raised. */
  lemma ChainCons<S>(state: S, call: StageCall, rest: seq<StageCall>, callback: (S, string, Stage) -> Result<S>)
    ensures callback(state, call.name, call.args).Failure? ==>
              Chain(state, [call] + rest, callback) == Failure(callback(state, call.name, call.args).error)
    ensures callback(state, call.name, call.args).Success? ==>
              Chain(state, [call] + rest, callback) == Chain(callback(state, call.name, call.args).value, rest, callback)
  {
    assert ([call] + rest)[0] == call && ([call] + rest)[1..] == rest;
  }

  /** The calls from position `i` on: that item's, if its map is non-empty, then those after it. */
  lemma NonEmptyStagesFrom(t: Table, i: nat)
    requires i < |t|
    ensures NonEmptyStages(t[i..]) == (if t[i].1 != map[] then [StageCall(t[i].0, t[i].1)] else []) + NonEmptyStages(t[i + 1..])
  {
    assert t[i..][0] == t[i] && t[i..][1..] == t[i + 1..];
  }

  /**
   * Without `filters`, the pass from position `i` on leaves the table as it
   * is and calls back on the non-empty stages in order: it ends where the
   * chain of those calls ends, and raises what the chain raises.
   */
  lemma {:induction false} PassFromNoFilters<S>(t: Table, params: map<string, Value>, i: nat, state: S,
                                                calls: seq<StageCall>, callback: (S, string, Stage) -> Result<S>)
    requires "filters" !in params && i <= |t|
    ensures var run := PassFrom(t, params, i, state, calls, callback);
      var chain := Chain(state, NonEmptyStages(t[i..]), callback);
      && run.table == t
      && (chain.Success? ==> run == Run(t, chain.value, calls + NonEmptyStages(t[i..]), None))
      && (chain.Failure? ==> run.error == Some(chain.error))
    decreases |t| - i
  {
    if i == |t| {
      assert t[i..] == [];
    } else {
      NonEmptyStagesFrom(t, i);
      var rest := NonEmptyStages(t[i + 1..]);
      assert t[i := (t[i].0, t[i].1)] == t;
      if t[i].1 == map[] {
        assert NonEmptyStages(t[i..]) == rest;
        PassFromNoFilters(t, params, i + 1, state, calls, callback);
      } else {
        var call := StageCall(t[i].0, t[i].1);
        assert NonEmptyStages(t[i..]) == [call] + rest;
        ChainCons(state, call, rest, callback);
        var r := callback(state, t[i].0, t[i].1);
        if r.Success? {
          PassFromNoFilters(t, params, i + 1, r.value, calls + [call], callback);
          assert calls + [call] + rest == calls + ([call] + rest);
        }
      }
    }
  }

  /**
   * Without a `filters` key the table is left as it is, whatever the other
   * parameters (`depth=8`, say), even when a callback raises; every
   * non-empty stage is called back, in order, with its map as it stands,
   * and the pass raises what the first raising callback raises.
   */
  lemma NoFiltersKeepsTable<S>(t: Table, params: map<string, Value>, state: S,
                               callback: (S, string, Stage) -> Result<S>)
    requires "filters" !in params
    ensures var run := FilterPass(t, params, state, callback);
      var chain := Chain(state, NonEmptyStages(t), callback);
      && run.table == t
      && (chain.Success? ==> run == Run(t, chain.value, NonEmptyStages(t), None))
      && (chain.Failure? ==> run.error == Some(chain.error))
  {
    assert t[0..] == t;
    PassFromNoFilters(t, params, 0, state, [], callback);
  }

  /** A callback that never raises gets through any sequence of calls. */
  lemma {:induction false} NeverFailsChain<S(!new)>(state: S, calls: seq<StageCall>, callback: (S, string, Stage) -> Result<S>)
    requires NeverFails(callback)
    ensures Chain(state, calls, callback).Success?
    decreases |calls|
  {
    if calls != [] {
      NeverFailsChain(callback(state, calls[0].name, calls[0].args).value, calls[1..], callback);
    }
  }

  /** A falsy override (`{}`, `None`, `False`, ...) empties its stage, and that stage is not called back. */
  lemma FalsyOverrideResets<S>(t: Table, params: map<string, Value>, state: S,
                               callback: (S, string, Stage) -> Result<S>, j: nat)
    requires UniqueNames(t) && j < |t|
    requires "filters" in params && params["filters"].Dict? && t[j].0 in params["filters"].entries
    requires !Truthy(params["filters"].entries[t[j].0])
    ensures var run := FilterPass(t, params, state, callback);
      run.error == None ==> run.table[j].1 == map[] && forall c | c in run.calls :: c.name != t[j].0
  {
    FilterPassMeaning(t, params, state, callback);
    var run := FilterPass(t, params, state, callback);
    if run.error == None {
      NonEmptyStagesMeaning(run.table);
      forall c | c in run.calls ensures c.name != t[j].0 {
        var j' :| 0 <= j' < |run.table| && run.table[j'] == (c.name, c.args);
        assert run.table[j'].0 == t[j'].0;
        assert j' != j;
      }
    }
  }

  /**
   * A dict override is merged into its stage: the override's keys take the
   * override's values, the stage's other keys keep theirs, and the result
   * stays in the table.
   */
  lemma DictOverrideMerges<S>(t: Table, params: map<string, Value>, state: S,
                              callback: (S, string, Stage) -> Result<S>, j: nat, o: map<string, Value>)
    requires j < |t|
    requires "filters" in params && params["filters"].Dict? && t[j].0 in params["filters"].entries
    requires params["filters"].entries[t[j].0] == Dict(o) && o != map[]
    ensures var run := FilterPass(t, params, state, callback);
      run.error == None ==>
        && run.table[j].1.Keys == t[j].1.Keys + o.Keys
        && (forall p | p in o :: run.table[j].1[p] == o[p])
        && (forall p | p in t[j].1 && p !in o :: run.table[j].1[p] == t[j].1[p])
  {
    FilterPassMeaning(t, params, state, callback);
  }

  /**
   * With `filters` a dict, a stage it lacks makes the pass raise: KeyError for
   * that stage, unless a callback on an earlier stage raised first, which
   * cannot happen when those stages' callbacks succeed on any state.
   */
  lemma {:induction false} PassFromMissingStage<S(!new)>(t: Table, params: map<string, Value>, i: nat, state: S,
                                                         calls: seq<StageCall>, callback: (S, string, Stage) -> Result<S>,
                                                         j: nat)
    requires i <= j < |t|
    requires "filters" in params && params["filters"].Dict?
    requires t[j].0 !in params["filters"].entries
    requires forall j' | i <= j' < j :: t[j'].0 in params["filters"].entries
    ensures PassFrom(t, params, i, state, calls, callback).error.Some?
    ensures (forall s: S, k, m | i <= k < j :: callback(s, t[k].0, m).Success?) ==>
              PassFrom(t, params, i, state, calls, callback).error == Some(KeyError(t[j].0))
    decreases |t| - i
  {
    if i < j {
      var name := t[i].0;
      var m := Merged(t[i].1, params, name).value;
      var t' := t[i := (name, m)];
      var r := callback(state, name, m);
      if m == map[] || r.Success? {
        PassFromMissingStage(t', params, i + 1, if m == map[] then state else r.value,
                             if m == map[] then calls else calls + [StageCall(name, m)], callback, j);
      }
    }
  }

  /**
   * With `filters` a dict lacking a stage of the table, the pass raises; when
   * the callbacks on the stages before it succeed on any state, it raises
   * KeyError naming the first stage of the table that `filters` lacks.
   */
  lemma MissingStageFails<S(!new)>(t: Table, params: map<string, Value>, state: S,
                                   callback: (S, string, Stage) -> Result<S>, j: nat)
    requires j < |t|
    requires "filters" in params && params["filters"].Dict?
    requires t[j].0 !in params["filters"].entries
    requires forall j' | 0 <= j' < j :: t[j'].0 in params["filters"].entries
    ensures FilterPass(t, params, state, callback).error.Some?
    ensures (forall s: S, k, m | 0 <= k < j :: callback(s, t[k].0, m).Success?) ==>
              FilterPass(t, params, state, callback).error == Some(KeyError(t[j].0))
  {
    PassFromMissingStage(t, params, 0, state, [], callback, j);
  }

  /** `filters` that is not a dict raises TypeError at the first stage, and only if there is one. */
  lemma FiltersNotADict<S>(t: Table, params: map<string, Value>, state: S,
                           callback: (S, string, Stage) -> Result<S>)
    requires "filters" in params && !params["filters"].Dict?
    ensures var run := FilterPass(t, params, state, callback);
      if t == [] then run == Run(t, state, [], None)
      else run.error == Some(TypeError(NotSubscriptable(params["filters"]))) && run.table == t && run.calls == []
  {
  }

  /** A callback that raises stops the pass there: later stages are not merged and the state is the one before. */
  lemma CallbackFailureStops<S>(t: Table, params: map<string, Value>, state: S, calls: seq<StageCall>,
                                callback: (S, string, Stage) -> Result<S>, i: nat)
    requires i < |t|
    requires Merged(t[i].1, params, t[i].0).Success?
    requires var m := Merged(t[i].1, params, t[i].0).value;
      m != map[] && callback(state, t[i].0, m).Failure?
    ensures var m := Merged(t[i].1, params, t[i].0).value;
      PassFrom(t, params, i, state, calls, callback)
        == Run(t[i := (t[i].0, m)], state, calls + [StageCall(t[i].0, m)],
               Some(callback(state, t[i].0, m).error))
  {
  }

  // ---------------------------------------------------------------------------
  // The shared mutable table
  // ---------------------------------------------------------------------------

  /** `SurfaceStrategy._parameters_key_values`: one object that every strategy refers to. */
  class ParameterTable {
    /** The dict's items in insertion order. */
    var entries: Table

    predicate Valid()
      reads this
    {
      UniqueNames(entries)
    }

    constructor ()
      ensures Valid() && entries == []
    {
      entries := [];
    }

    /** `_parameters_convertion` over the schema `parameters`. */
    method Convert(parameters: Schema) returns (err: Option<Error>)
      requires Valid()
      modifies this
      ensures Valid()
      ensures Conversion(entries, err) == Converted(old(entries), parameters)
    {
      var i := 0;
      while i < |parameters|
        invariant 0 <= i <= |parameters|
        invariant Valid()
        invariant Converted(old(entries), parameters) == Converted(entries, parameters[i..])
      {
        assert parameters[i..][1..] == parameters[i + 1..];
        var (name, entry) := parameters[i];
        var r := EntryToStage(entry);
        if r.Failure? {
          return Some(r.error);
        }
        if r.value.Some? {
          entries := Assign(entries, name, r.value.value);
        }
        i := i + 1;
      }
      assert parameters[i..] == [];
      return None;
    }

    /**
     * `poisson_filters(callback, **params)`: walks the table in order, merges
     * each stage in place and calls back on the non-empty ones. `calls` is the
     * trace of the callbacks made.
     */
    method PoissonFilters<S>(params: map<string, Value>, state: S, callback: (S, string, Stage) -> Result<S>)
      returns (st: S, ghost calls: seq<StageCall>, err: Option<Error>)
      requires Valid()
      modifies this
      ensures Valid()
      ensures Run(entries, st, calls, err) == FilterPass(old(entries), params, state, callback)
    {
      st, calls, err := state, [], None;
      var i := 0;
      while i < |entries|
        invariant 0 <= i <= |entries|
        invariant |entries| == |old(entries)|
        invariant FilterPass(old(entries), params, state, callback) == PassFrom(entries, params, i, st, calls, callback)
      {
        ghost var before := PassFrom(entries, params, i, st, calls, callback);
        var name := entries[i].0;
        var merged := Merged(entries[i].1, params, name);
        if merged.Failure? {
          err := Some(merged.error);
          return;
        }
        entries := entries[i := (name, merged.value)];
        if merged.value != map[] {
          calls := calls + [StageCall(name, merged.value)];
          var r := callback(st, name, merged.value);
          if r.Failure? {
            err := Some(r.error);
            return;
          }
          st := r.value;
        }
        assert before == PassFrom(entries, params, i + 1, st, calls, callback);
        i := i + 1;
      }
    }
  }
}
