/** Configuration from environment variables named PREFIX + SECTION__FIELD. */
module Environment {
  import opened Types
  import opened Config

  datatype Variable = Variable(name: string, value: string)

  // ---------- names ----------

  function Lower(c: char): char {
    if 'A' <= c <= 'Z' then c + 32 as char else c
  }

  function LowerAll(s: string): (r: string)
    ensures |r| == |s| && forall i :: 0 <= i < |s| ==> r[i] == Lower(s[i])
  {
    seq(|s|, i requires 0 <= i < |s| => Lower(s[i]))
  }

  predicate StartsWith(s: string, prefix: string) {
    |prefix| <= |s| && s[..|prefix|] == prefix
  }

  /** `s.split("__")`: cut at each double underscore, scanning from the left. */
  function Split(s: string): (parts: seq<string>)
    ensures parts != []
  {
    if s == "" then [""]
    else if |s| >= 2 && s[0] == '_' && s[1] == '_' then [""] + Split(s[2..])
    else
      var rest := Split(s[1..]);
      [[s[0]] + rest[0]] + rest[1..]
  }

  function Join(parts: seq<string>): string
    requires parts != []
  {
    if |parts| == 1 then parts[0] else parts[0] + "__" + Join(parts[1..])
  }

  lemma JoinFirst(c: char, parts: seq<string>)
    requires parts != []
    ensures Join([[c] + parts[0]] + parts[1..]) == [c] + Join(parts)
  {
    var longer := [[c] + parts[0]] + parts[1..];
    assert longer[1..] == parts[1..];
    if |parts| > 1 {
      assert [c] + (parts[0] + "__" + Join(parts[1..])) == ([c] + parts[0]) + "__" + Join(parts[1..]);
    }
  }

  lemma JoinEmpty(parts: seq<string>)
    requires parts != []
    ensures Join([""] + parts) == "__" + Join(parts)
  {
    assert ([""] + parts)[1..] == parts;
  }

  /** Joining the parts gives the text back. */
  lemma {:induction false} JoinSplit(s: string)
    ensures Join(Split(s)) == s
  {
    hide Join;
    if s == "" {
      JoinOne("");
    } else if |s| >= 2 && s[0] == '_' && s[1] == '_' {
      JoinSplit(s[2..]);
      JoinEmpty(Split(s[2..]));
      assert "__" + s[2..] == s;
    } else {
      JoinSplit(s[1..]);
      JoinFirst(s[0], Split(s[1..]));
      assert [s[0]] + s[1..] == s;
    }
  }

  lemma JoinOne(s: string)
    ensures Join([s]) == s
  {
  }

  /** No double underscore begins inside s, not even with a '_' following it. */
  predicate Unbroken(s: string) {
    forall i :: 0 <= i < |s| && s[i] == '_' ==> i + 1 < |s| && s[i + 1] != '_'
  }

  /** No double underscore lies inside s. */
  predicate Single(s: string) {
    forall i :: 0 <= i < |s| - 1 && s[i] == '_' ==> s[i + 1] != '_'
  }

  lemma {:induction false} SplitSingle(s: string)
    requires Single(s)
    ensures Split(s) == [s]
  {
    if s != "" {
      forall i | 0 <= i < |s| - 2 && s[1..][i] == '_'
        ensures s[1..][i + 1] != '_'
      {
        assert s[i + 1] == '_';
      }
      SplitSingle(s[1..]);
      assert [s[0]] + s[1..] == s;
    }
  }

  lemma {:induction false} SplitTwo(a: string, b: string)
    requires Unbroken(a) && Single(b)
    ensures Split(a + "__" + b) == [a, b]
  {
    var s := a + "__" + b;
    if a == "" {
      assert s[2..] == b;
      SplitSingle(b);
    } else {
      assert s[1..] == a[1..] + "__" + b;
      forall i | 0 <= i < |a| - 1 && a[1..][i] == '_'
        ensures i + 1 < |a| - 1 && a[1..][i + 1] != '_'
      {
        assert a[i + 1] == '_';
      }
      SplitTwo(a[1..], b);
      if a[0] == '_' {
        assert s[1] == a[1];
      }
      assert [a[0]] + a[1..] == a;
    }
  }

  /** The section and field a variable sets, if it sets one. */
  function Target(name: string, prefix: string): Option<(string, string)> {
    if !StartsWith(name, prefix) then None
    else
      var parts := Split(LowerAll(name[|prefix|..]));
      if |parts| != 2 then None else Some((parts[0], parts[1]))
  }

  lemma LowerKeepsUnderscores(s: string)
    ensures Unbroken(s) ==> Unbroken(LowerAll(s))
    ensures Single(s) ==> Single(LowerAll(s))
  {
  }

  /** PREFIX + SECTION__FIELD names that section and field, in lower case. */
  lemma TargetOf(prefix: string, section: string, field: string)
    requires Unbroken(section) && Single(field)
    ensures Target(prefix + section + "__" + field, prefix) == Some((LowerAll(section), LowerAll(field)))
  {
    var name := prefix + section + "__" + field;
    assert name[..|prefix|] == prefix;
    assert name[|prefix|..] == section + "__" + field;
    assert LowerAll(section + "__" + field) == LowerAll(section) + "__" + LowerAll(field);
    LowerKeepsUnderscores(section);
    LowerKeepsUnderscores(field);
    SplitTwo(LowerAll(section), LowerAll(field));
  }

  /** Splitting into two parts means one double underscore, the first there is. */
  lemma TwoParts(s: string, a: string, b: string)
    ensures Split(s) == [a, b] <==> s == a + "__" + b && Unbroken(a) && Single(b)
  {
    if s == a + "__" + b && Unbroken(a) && Single(b) {
      SplitTwo(a, b);
    }
    if Split(s) == [a, b] {
      JoinSplit(s);
      JoinTwo(a, b);
      PartsAreWhole(s);
    }
  }

  lemma JoinTwo(a: string, b: string)
    ensures Join([a, b]) == a + "__" + b
  {
    assert [a, b][1..] == [b];
  }

  /** Every part but the last is followed by a double underscore that is the first in what is left;
      the last has none inside. */
  lemma {:induction false} PartsAreWhole(s: string)
    ensures var parts := Split(s);
      && (forall i :: 0 <= i < |parts| - 1 ==> Unbroken(parts[i]))
      && Single(parts[|parts| - 1])
      && (|parts| == 1 ==> parts[0] == s)
      && (|parts| > 1 && s != "" && s[0] != '_' ==> parts[0] != "")
      && (|parts| > 1 && parts[0] != "" ==> s != "" && s[0] == parts[0][0])
  {
    if s == "" {
    } else if |s| >= 2 && s[0] == '_' && s[1] == '_' {
      PartsAreWhole(s[2..]);
      var rest := Split(s[2..]);
      assert Split(s) == [""] + rest;
    } else {
      PartsAreWhole(s[1..]);
      var rest := Split(s[1..]);
      var parts := Split(s);
      assert parts == [[s[0]] + rest[0]] + rest[1..];
      FirstPart(s, rest[0], |rest| == 1);
    }
  }

  lemma FirstPart(s: string, first: string, last: bool)
    requires s != "" && !(|s| >= 2 && s[0] == '_' && s[1] == '_')
    requires if last then first == s[1..] && Single(first) else Unbroken(first)
    requires !last && first != "" ==> |s| > 1 && first[0] == s[1]
    requires !last && |s| > 1 && s[1] != '_' ==> first != ""
    requires !last ==> |s| > 1
    ensures if last then Single([s[0]] + first) else Unbroken([s[0]] + first)
  {
  }

  /** A variable sets a field exactly if its name is the prefix followed by text that reads, in lower
      case, section, double underscore, field, the double underscore being the first and only one;
      any other name sets nothing. */
  lemma TargetIff(name: string, prefix: string, section: string, field: string)
    ensures Target(name, prefix) == Some((section, field)) <==>
              && StartsWith(name, prefix)
              && LowerAll(name[|prefix|..]) == section + "__" + field
              && Unbroken(section) && Single(field)
  {
    if StartsWith(name, prefix) {
      var parts := Split(LowerAll(name[|prefix|..]));
      TwoParts(LowerAll(name[|prefix|..]), section, field);
      if |parts| == 2 {
        assert parts == [parts[0], parts[1]];
      }
    }
  }

  // ---------- collecting ----------

  /** data with one more setting. */
  function Set(data: Tables, section: string, field: string, atom: Atom): Tables {
    var entries := if section in data && data[section].Table? then data[section].entries else map[];
    data[section := Table(entries[field := Leaf(atom)])]
  }

  /** The environment's tables: variables in order, later ones winning. */
  function Collect(env: seq<Variable>, prefix: string, coerce: string -> Atom): Tables {
    if env == [] then map[]
    else
      var before, last := Collect(env[..|env| - 1], prefix, coerce), env[|env| - 1];
      match Target(last.name, prefix)
      case None => before
      case Some((section, field)) => Set(before, section, field, coerce(last.value))
  }

  method CollectEnv(env: seq<Variable>, prefix: string, coerce: string -> Atom) returns (data: Tables)
    ensures data == Collect(env, prefix, coerce)
  {
    data := map[];
    var i := 0;
    while i < |env|
      invariant 0 <= i <= |env| && data == Collect(env[..i], prefix, coerce)
    {
      assert env[..i + 1][..i] == env[..i];
      var target := Target(env[i].name, prefix);
      if target.Some? {
        var (section, field) := target.value;
        data := Set(data, section, field, coerce(env[i].value));
      }
      i := i + 1;
    }
    assert env[..i] == env;
  }

  /** The value of the last variable that names the setting. */
  function LastValue(env: seq<Variable>, prefix: string, section: string, field: string): Option<string> {
    if env == [] then None
    else if Target(env[|env| - 1].name, prefix) == Some((section, field)) then Some(env[|env| - 1].value)
    else LastValue(env[..|env| - 1], prefix, section, field)
  }

  /** The environment has exactly the settings its variables name, each with its last value,
      and nothing deeper than section and field. */
  lemma {:induction false} EnvironmentSays(env: seq<Variable>, prefix: string, coerce: string -> Atom, path: seq<string>)
    ensures forall s :: s in Collect(env, prefix, coerce) ==> Collect(env, prefix, coerce)[s].Table?
    ensures At(Collect(env, prefix, coerce), path) ==
              if |path| != 2 then None
              else match LastValue(env, prefix, path[0], path[1])
                case Some(text) => Some(coerce(text))
                case None => None
  {
    if env != [] {
      var init, last := env[..|env| - 1], env[|env| - 1];
      EnvironmentSays(init, prefix, coerce, path);
      var target := Target(last.name, prefix);
      if target.Some? {
        SetAt(Collect(init, prefix, coerce), target.value.0, target.value.1, coerce(last.value), path);
      }
    }
  }

  lemma SetAt(data: Tables, section: string, field: string, atom: Atom, path: seq<string>)
    requires forall s :: s in data ==> data[s].Table?
    ensures At(Set(data, section, field, atom), path) ==
              if path == [section, field] then Some(atom)
              else if |path| > 2 && path[0] == section && path[1] == field then None
              else At(data, path)
  {
    if |path| >= 2 {
      assert path[1..][0] == path[1];
    }
  }

  /** With all sources: a field is what the overrides say, else its last environment variable,
      else the file, else the default. */
  lemma SettingIs(defaults: Tables, file: Option<Tables>, env: seq<Variable>, prefix: string, coerce: string -> Atom,
                  overrides: Tables, section: string, field: string)
    requires IsSchema(defaults) && section in defaults
    requires AllCompatible(defaults, file, Collect(env, prefix, coerce), overrides)
    ensures var config := Layered(defaults, file, Collect(env, prefix, coerce), overrides);
      var path := [section, field];
      var fromEnv := match LastValue(env, prefix, section, field)
                     case Some(text) => Some(coerce(text))
                     case None => None;
      config.Ok? ==>
        At(config.value, path) == OrElse(At(overrides, path), OrElse(fromEnv, OrElse(AtFile(file, path), At(defaults, path))))
  {
    hide Collect, Layered, At, AllCompatible, IsSchema;
    var path := [section, field];
    EnvironmentSays(env, prefix, coerce, path);
    Precedence(defaults, file, Collect(env, prefix, coerce), overrides, path);
  }
}
