/** Layered configuration: recursive merge of defaults, file, environment and overrides. */
module Config {
  import opened Types

  /** A configuration value that is not a table. */
  datatype Atom = Flag(b: bool) | Number(n: real) | Text(s: string) | Names(names: seq<string>) | Nothing

  datatype Tree = Leaf(atom: Atom) | Table(entries: Tables)

  type Tables = map<string, Tree>

  // ---------- merge ----------

  /** Tables merge key by key; anything else is replaced by the overriding value. */
  function Merge(base: Tables, over: Tables): (r: Tables)
    ensures r.Keys == base.Keys + over.Keys
    decreases Table(over), 1
  {
    map k | k in base.Keys + over.Keys :: if k in over then MergeKey(base, over, k) else base[k]
  }

  function MergeKey(base: Tables, over: Tables, k: string): Tree
    requires k in over
    decreases Table(over), 0
  {
    if over[k].Table? && k in base && base[k].Table? then Table(Merge(base[k].entries, over[k].entries)) else over[k]
  }

  /** `_deep_merge`: copies the base and assigns the overriding keys one by one. */
  method DeepMerge(base: Tables, over: Tables) returns (merged: Tables)
    ensures merged == Merge(base, over)
    decreases Table(over), 1
  {
    hide Merge, MergeKey;
    merged := base;
    var todo := over.Keys;
    while todo != {}
      invariant todo <= over.Keys && HalfMerged(base, over, todo, merged)
      decreases |todo|
    {
      var k :| k in todo;
      var value := MergeOne(base, over, k, merged, todo);
      OneMoreKey(base, over, todo, merged, k);
      merged := merged[k := value];
      todo := todo - {k};
    }
    AllMerged(base, over, merged);
  }

  /** The body of the loop: the new value of one overriding key. */
  method MergeOne(base: Tables, over: Tables, k: string, merged: Tables, ghost todo: set<string>) returns (value: Tree)
    requires k in todo && todo <= over.Keys && HalfMerged(base, over, todo, merged)
    ensures value == MergeKey(base, over, k)
    decreases Table(over), 0
  {
    hide Merge;
    value := over[k];
    if value.Table? && k in merged && merged[k].Table? {
      var inner := DeepMerge(merged[k].entries, value.entries);
      value := Table(inner);
    }
  }

  /** The keys in todo are still as in the base. */
  ghost predicate HalfMerged(base: Tables, over: Tables, todo: set<string>, merged: Tables) {
    && merged.Keys == base.Keys + (over.Keys - todo)
    && (forall k :: k in over && k !in todo ==> merged[k] == MergeKey(base, over, k))
    && (forall k :: k in base && (k !in over || k in todo) ==> merged[k] == base[k])
  }

  lemma OneMoreKey(base: Tables, over: Tables, todo: set<string>, merged: Tables, k: string)
    requires k in todo && todo <= over.Keys && HalfMerged(base, over, todo, merged)
    ensures HalfMerged(base, over, todo - {k}, merged[k := MergeKey(base, over, k)])
  {
    hide MergeKey;
  }

  lemma AllMerged(base: Tables, over: Tables, merged: Tables)
    requires HalfMerged(base, over, {}, merged)
    ensures merged == Merge(base, over)
  {
    hide MergeKey;
  }

  // ---------- algebra ----------

  lemma MergeEmpty(a: Tables)
    ensures Merge(a, map[]) == a && Merge(map[], a) == a
  {
  }

  lemma {:induction false} MergeSelf(a: Tables)
    ensures Merge(a, a) == a
    decreases Table(a)
  {
    forall k | k in a
      ensures Merge(a, a)[k] == a[k]
    {
      if a[k].Table? {
        MergeSelf(a[k].entries);
      }
    }
  }

  /** Merging the same overrides again changes nothing. */
  lemma {:induction false} RightIdempotent(a: Tables, b: Tables)
    ensures Merge(Merge(a, b), b) == Merge(a, b)
    decreases Table(b)
  {
    var m := Merge(a, b);
    forall k | k in m
      ensures Merge(m, b)[k] == m[k]
    {
      if k in b {
        assert Merge(m, b)[k] == MergeKey(m, b, k) && m[k] == MergeKey(a, b, k);
        if k in a && a[k].Table? && b[k].Table? {
          RightIdempotent(a[k].entries, b[k].entries);
        } else if b[k].Table? {
          MergeSelf(b[k].entries);
        }
      }
    }
  }

  /** Merging onto the base a second time changes nothing. */
  lemma {:induction false} LeftAbsorbs(a: Tables, b: Tables)
    ensures Merge(a, Merge(a, b)) == Merge(a, b)
    decreases Table(b)
  {
    var m := Merge(a, b);
    forall k | k in m
      ensures Merge(a, m)[k] == m[k]
    {
      assert Merge(a, m)[k] == MergeKey(a, m, k) && m[k] == if k in b then MergeKey(a, b, k) else a[k];
      if k in a && a[k].Table? && m[k].Table? {
        if k in b {
          LeftAbsorbs(a[k].entries, b[k].entries);
        } else {
          MergeSelf(a[k].entries);
        }
      }
    }
  }

  /** Every key of x is a key of z, and so on inside tables they share. */
  predicate Covered(x: Tables, z: Tables)
    decreases Table(x)
  {
    forall k :: k in x ==> k in z && (x[k].Table? && z[k].Table? ==> Covered(x[k].entries, z[k].entries))
  }

  lemma {:induction false} CoveredMergesAway(x: Tables, z: Tables)
    ensures Merge(x, z) == z <==> Covered(x, z)
    decreases Table(z)
  {
    var m := Merge(x, z);
    forall k | k in x && k in z && x[k].Table? && z[k].Table?
      ensures m[k] == z[k] <==> Covered(x[k].entries, z[k].entries)
    {
      CoveredMergesAway(x[k].entries, z[k].entries);
      assert m[k] == MergeKey(x, z, k);
      assert z[k] == Table(z[k].entries);
    }
    if m == z {
      assert forall k :: k in x ==> k in m;
    }
    if Covered(x, z) {
      assert m.Keys == z.Keys;
    }
  }

  /** Wherever a table is overridden by a non-table and that again by a table, the last table
      has all the keys of the first. */
  predicate Associates(a: Tables, b: Tables, c: Tables)
    decreases Table(a)
  {
    forall k :: k in a && k in b && k in c && a[k].Table? && c[k].Table? ==>
      if b[k].Table? then Associates(a[k].entries, b[k].entries, c[k].entries)
      else Covered(a[k].entries, c[k].entries)
  }

  /** Merging is associative exactly where Associates holds. */
  lemma {:induction false} AssociativeIff(a: Tables, b: Tables, c: Tables)
    ensures Merge(Merge(a, b), c) == Merge(a, Merge(b, c)) <==> Associates(a, b, c)
    decreases Table(c)
  {
    var left, right := Merge(Merge(a, b), c), Merge(a, Merge(b, c));
    assert left.Keys == right.Keys;
    forall k | k in left
      ensures left[k] == right[k] <==> AssociatesAt(a, b, c, k)
    {
      AssociativeAt(a, b, c, k);
    }
    if left != right {
      var k :| k in left && left[k] != right[k];
      assert !AssociatesAt(a, b, c, k);
    }
  }

  predicate AssociatesAt(a: Tables, b: Tables, c: Tables, k: string) {
    k in a && k in b && k in c && a[k].Table? && c[k].Table? ==>
      if b[k].Table? then Associates(a[k].entries, b[k].entries, c[k].entries)
      else Covered(a[k].entries, c[k].entries)
  }

  lemma {:induction false} AssociativeAt(a: Tables, b: Tables, c: Tables, k: string)
    requires k in a || k in b || k in c
    ensures Merge(Merge(a, b), c)[k] == Merge(a, Merge(b, c))[k] <==> AssociatesAt(a, b, c, k)
    decreases Table(c), 0
  {
    if k in a && k in b && k in c && a[k].Table? && c[k].Table? {
      if b[k].Table? {
        AssociativeIff(a[k].entries, b[k].entries, c[k].entries);
      } else {
        CoveredMergesAway(a[k].entries, c[k].entries);
      }
    }
  }

  /** No key, at any depth, is a table, then not a table, then a table again. */
  predicate NoFlips(a: Tables, b: Tables, c: Tables)
    decreases Table(a)
  {
    forall k :: k in a && k in b && k in c && a[k].Table? && c[k].Table? ==>
      b[k].Table? && NoFlips(a[k].entries, b[k].entries, c[k].entries)
  }

  lemma {:induction false} NoFlipsAssociates(a: Tables, b: Tables, c: Tables)
    requires NoFlips(a, b, c)
    ensures Associates(a, b, c)
    decreases Table(a)
  {
    forall k | k in a && k in b && k in c && a[k].Table? && c[k].Table?
      ensures Associates(a[k].entries, b[k].entries, c[k].entries)
    {
      NoFlipsAssociates(a[k].entries, b[k].entries, c[k].entries);
    }
  }

  /** Merging is not associative in general. */
  lemma NotAssociative(x: Tree)
    ensures var a, b, c := map["k" := Table(map["x" := x])], map["k" := Leaf(Nothing)], map["k" := Table(map[])];
      Merge(Merge(a, b), c) != Merge(a, Merge(b, c))
  {
    var a, b, c := map["k" := Table(map["x" := x])], map["k" := Leaf(Nothing)], map["k" := Table(map[])];
    assert "x" in a["k"].entries && "x" !in c["k"].entries;
    assert !Covered(a["k"].entries, c["k"].entries);
    assert !Associates(a, b, c);
    AssociativeIff(a, b, c);
  }

  // ---------- settings ----------

  /** The setting at a path: a value that is not a table. */
  function At(t: Tables, path: seq<string>): Option<Atom>
    decreases |path|
  {
    if path == [] || path[0] !in t then None
    else match t[path[0]]
      case Leaf(a) => if |path| == 1 then Some(a) else None
      case Table(entries) => At(entries, path[1..])
  }

  function OrElse(first: Option<Atom>, second: Option<Atom>): Option<Atom> {
    if first.Some? then first else second
  }

  /** No path is a table in one source and a setting in the other. */
  predicate Compatible(a: Tables, b: Tables)
    decreases Table(a)
  {
    forall k :: k in a && k in b ==>
      a[k].Table? == b[k].Table? && (a[k].Table? ==> Compatible(a[k].entries, b[k].entries))
  }

  lemma {:induction false} CompatibleSymmetric(a: Tables, b: Tables)
    requires Compatible(a, b)
    ensures Compatible(b, a)
    decreases Table(a)
  {
    forall k | k in a && k in b && a[k].Table?
      ensures Compatible(b[k].entries, a[k].entries)
    {
      CompatibleSymmetric(a[k].entries, b[k].entries);
    }
  }

  lemma {:induction false} CompatibleMerge(a: Tables, b: Tables, c: Tables)
    requires Compatible(a, c) && Compatible(b, c)
    ensures Compatible(Merge(a, b), c)
    decreases Table(c)
  {
    var m := Merge(a, b);
    forall k | k in m && k in c
      ensures m[k].Table? == c[k].Table? && (m[k].Table? ==> Compatible(m[k].entries, c[k].entries))
    {
      assert m[k] == if k in b then MergeKey(a, b, k) else a[k];
      if k in a && k in b && a[k].Table? && b[k].Table? {
        CompatibleMerge(a[k].entries, b[k].entries, c[k].entries);
      }
    }
  }

  /** In compatible sources the overriding setting wins at every path. */
  lemma {:induction false} OverridingWins(a: Tables, b: Tables, path: seq<string>)
    requires Compatible(a, b)
    ensures At(Merge(a, b), path) == OrElse(At(b, path), At(a, path))
    decreases |path|
  {
    if path != [] && path[0] in a && path[0] in b && a[path[0]].Table? && b[path[0]].Table? {
      OverridingWins(a[path[0]].entries, b[path[0]].entries, path[1..]);
      assert Merge(a, b)[path[0]] == MergeKey(a, b, path[0]);
    }
  }

  // ---------- the layers ----------

  datatype ConfigError = InvalidSection

  /** Every section of the defaults is a table. */
  predicate IsSchema(defaults: Tables) {
    forall s :: s in defaults ==> defaults[s].Table?
  }

  /** The data's sections that the schema knows are tables with known fields only. */
  predicate Known(data: Tables, defaults: Tables)
    requires IsSchema(defaults)
  {
    forall s :: s in defaults && s in data ==> data[s].Table? && data[s].entries.Keys <= defaults[s].entries.Keys
  }

  /** `from_mapping` followed by `to_dict`: sections the schema does not know are dropped. */
  function FromMapping(defaults: Tables, data: Tables): Result<Tables, ConfigError>
    requires IsSchema(defaults)
  {
    var merged := Merge(defaults, data);
    if Known(merged, defaults) then Ok(map s | s in defaults :: merged[s]) else Err(InvalidSection)
  }

  /** A mapping is accepted exactly when its known sections are tables of known fields; the result
      has exactly the schema's sections. */
  lemma MappingAccepted(defaults: Tables, data: Tables)
    requires IsSchema(defaults)
    ensures FromMapping(defaults, data).Ok? <==> Known(data, defaults)
    ensures FromMapping(defaults, data).Ok? ==> FromMapping(defaults, data).value.Keys == defaults.Keys
  {
    var merged := Merge(defaults, data);
    assert forall s :: s in defaults && s in data ==> merged[s] == MergeKey(defaults, data, s);
  }

  /** `from_sources`: file over defaults, then environment, then explicit overrides. */
  method FromSources(defaults: Tables, file: Option<Tables>, env: Tables, overrides: Tables)
    returns (config: Result<Tables, ConfigError>)
    requires IsSchema(defaults)
    ensures config == Layered(defaults, file, env, overrides)
  {
    var merged: Tables := map[];
    if file.Some? {
      var fromFile := FromMapping(defaults, file.value);
      if fromFile.Err? {
        return fromFile;
      }
      merged := fromFile.value;
    }
    MergeEmpty(merged);
    if env != map[] {
      merged := DeepMerge(merged, env);
    }
    MergeEmpty(merged);
    if overrides != map[] {
      merged := DeepMerge(merged, overrides);
    }
    config := FromMapping(defaults, merged);
  }

  function FileLayer(defaults: Tables, file: Option<Tables>): Result<Tables, ConfigError>
    requires IsSchema(defaults)
  {
    if file.None? then Ok(map[]) else FromMapping(defaults, file.value)
  }

  function Layered(defaults: Tables, file: Option<Tables>, env: Tables, overrides: Tables): Result<Tables, ConfigError>
    requires IsSchema(defaults)
  {
    match FileLayer(defaults, file)
    case Err(e) => Err(e)
    case Ok(base) => FromMapping(defaults, Merge(Merge(base, env), overrides))
  }

  /** No two sources disagree about what is a table. */
  predicate AllCompatible(defaults: Tables, file: Option<Tables>, env: Tables, overrides: Tables) {
    && Compatible(defaults, env) && Compatible(defaults, overrides) && Compatible(env, overrides)
    && (file.Some? ==>
          Compatible(defaults, file.value) && Compatible(file.value, env) && Compatible(file.value, overrides))
  }

  function AtFile(file: Option<Tables>, path: seq<string>): Option<Atom> {
    if file.Some? then At(file.value, path) else None
  }

  lemma MappingAt(defaults: Tables, data: Tables, path: seq<string>)
    requires IsSchema(defaults) && Compatible(defaults, data) && FromMapping(defaults, data).Ok?
    requires path != [] && path[0] in defaults
    ensures At(FromMapping(defaults, data).value, path) == OrElse(At(data, path), At(defaults, path))
  {
    OverridingWins(defaults, data, path);
  }

  lemma MappingCompatible(defaults: Tables, data: Tables, c: Tables)
    requires IsSchema(defaults) && Compatible(defaults, c) && Compatible(data, c) && FromMapping(defaults, data).Ok?
    ensures Compatible(FromMapping(defaults, data).value, c)
  {
    CompatibleMerge(defaults, data, c);
    hide Merge;
  }

  lemma KnownMerge(a: Tables, b: Tables, defaults: Tables)
    requires IsSchema(defaults) && Compatible(a, defaults) && Compatible(b, defaults)
    ensures Known(Merge(a, b), defaults) <==> Known(a, defaults) && Known(b, defaults)
  {
    forall s | s in defaults && (s in a || s in b)
      ensures Merge(a, b)[s] == if s in b then MergeKey(a, b, s) else a[s]
    {
    }
  }

  /** Compatible sources are accepted exactly when each names known fields only. */
  lemma SourcesAccepted(defaults: Tables, file: Option<Tables>, env: Tables, overrides: Tables)
    requires IsSchema(defaults) && AllCompatible(defaults, file, env, overrides)
    ensures Layered(defaults, file, env, overrides).Ok? <==>
            (file.Some? ==> Known(file.value, defaults)) && Known(env, defaults) && Known(overrides, defaults)
  {
    if file.Some? {
      MappingAccepted(defaults, file.value);
    }
    var base := FileLayer(defaults, file);
    if base.Ok? {
      BaseCompatible(defaults, file, env, overrides);
      assert Known(base.value, defaults);
      hide Merge, Compatible, Known, FromMapping;
      var all := Merge(Merge(base.value, env), overrides);
      CompatibleMerge(base.value, env, defaults);
      KnownMerge(base.value, env, defaults);
      KnownMerge(Merge(base.value, env), overrides, defaults);
      MappingAccepted(defaults, all);
    }
  }

  /** At every path of a known section: the override, else the environment, else the file, else
      the default. */
  lemma Precedence(defaults: Tables, file: Option<Tables>, env: Tables, overrides: Tables, path: seq<string>)
    requires IsSchema(defaults) && AllCompatible(defaults, file, env, overrides)
    requires path != [] && path[0] in defaults
    ensures var config := Layered(defaults, file, env, overrides);
      config.Ok? ==>
        At(config.value, path) ==
          OrElse(At(overrides, path), OrElse(At(env, path), OrElse(AtFile(file, path), At(defaults, path))))
  {
    hide Merge, Compatible, IsSchema, Known, FromMapping, At;
    var base := FileLayer(defaults, file);
    if base.Ok? {
      BaseCompatible(defaults, file, env, overrides);
      BaseAt(defaults, file, path);
      OverridingWins(base.value, env, path);
      CompatibleMerge(base.value, env, overrides);
      OverridingWins(Merge(base.value, env), overrides, path);
      var all := Merge(Merge(base.value, env), overrides);
      CompatibleMerge(base.value, env, defaults);
      CompatibleMerge(Merge(base.value, env), overrides, defaults);
      CompatibleSymmetric(all, defaults);
      if FromMapping(defaults, all).Ok? {
        MappingAt(defaults, all, path);
      }
    }
  }

  lemma BaseCompatible(defaults: Tables, file: Option<Tables>, env: Tables, overrides: Tables)
    requires IsSchema(defaults) && AllCompatible(defaults, file, env, overrides) && FileLayer(defaults, file).Ok?
    ensures var base := FileLayer(defaults, file).value;
      && Compatible(base, env) && Compatible(base, overrides) && Compatible(base, defaults)
      && Compatible(env, defaults) && Compatible(overrides, defaults)
  {
    CompatibleSymmetric(defaults, env);
    CompatibleSymmetric(defaults, overrides);
    if file.Some? {
      hide Merge, Known;
      MappingCompatible(defaults, file.value, env);
      MappingCompatible(defaults, file.value, overrides);
      CompatibleSymmetric(defaults, file.value);
      SelfCompatible(defaults);
      MappingCompatible(defaults, file.value, defaults);
    }
  }

  lemma BaseAt(defaults: Tables, file: Option<Tables>, path: seq<string>)
    requires IsSchema(defaults) && path != [] && path[0] in defaults
    requires (file.Some? ==> Compatible(defaults, file.value)) && FileLayer(defaults, file).Ok?
    ensures OrElse(At(FileLayer(defaults, file).value, path), At(defaults, path)) ==
              OrElse(AtFile(file, path), At(defaults, path))
  {
    hide Merge, Known;
    if file.Some? {
      MappingAt(defaults, file.value, path);
    }
  }

  lemma {:induction false} SelfCompatible(a: Tables)
    ensures Compatible(a, a)
    decreases Table(a)
  {
    forall k | k in a && a[k].Table?
      ensures Compatible(a[k].entries, a[k].entries)
    {
      SelfCompatible(a[k].entries);
    }
  }
}
