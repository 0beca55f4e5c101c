/** Turning an evaluated unit-definition table into a unit template.

    The definition file is a Lua script that evaluates to a table; the
    evaluation itself is not part of this model, so a definition enters as
    the table it evaluated to, and the file's stem enters as a string. */
module Loader {
  import opened Units

  /** The Lua values a definition table can hold. Lua integers are 64-bit,
      Lua numbers are floats (taken here as exact reals). */
  datatype Value =
    | Integer(i: int)
    | Number(n: real)
    | String(s: string)
    | Table(fields: map<string, Value>)
    | Other

  /** The range a Lua integer must lie in to be read as an `i32`. */
  const I32Min: int := -0x8000_0000
  const I32Max: int := 0x7FFF_FFFF

  /** Why a definition was refused; each error names the key it concerns,
      except the failed conversion of a single top-level entry to a table. */
  datatype LoadError =
    | InvalidString(key: string)  // "Attempted to parse invalid string for <key>."
    | InvalidFloat(key: string)   // "Attempted to parse invalid float for <key>."
    | MissingKey(key: string)     // "Required key <key> is missing."
    | NotATable

  datatype Result<T> = Ok(value: T) | Err(error: LoadError) {
    predicate IsFailure() { Err? }
    function PropagateFailure<U>(): Result<U> requires Err? { Err(error) }
    function Extract(): T requires Ok? { value }
  }

  /** A value readable as a float: a Lua number, or a Lua integer that fits
      in an `i32`. */
  predicate IsFloat(v: Value)
  {
    v.Number? || (v.Integer? && I32Min <= v.i <= I32Max)
  }

  /** The float a readable value stands for. */
  function FloatOf(v: Value): (r: real)
    requires IsFloat(v)
  {
    if v.Number? then v.n else v.i as real
  }

  /** Reads a present value as a float; `key` only labels the error. */
  function AsFloat(v: Value, key: string): (r: Result<real>)
    ensures r.Ok? <==> IsFloat(v)
    ensures r.Ok? ==> r.value == FloatOf(v)
    ensures r.Err? ==> r.error == InvalidFloat(key)
  {
    match v
    case Integer(i) => if I32Min <= i <= I32Max then Ok(i as real) else Err(InvalidFloat(key))
    case Number(n) => Ok(n)
    case _ => Err(InvalidFloat(key))
  }

  /** An optional string field: the default when absent, an error when
      present but not a string. */
  function GetStringOr(t: map<string, Value>, key: string, default: string): (r: Result<string>)
    ensures key !in t ==> r == Ok(default)
    ensures key in t ==> (r.Ok? <==> t[key].String?)
    ensures key in t && t[key].String? ==> r.value == t[key].s
    ensures r.Err? ==> r.error == InvalidString(key)
  {
    if key !in t then Ok(default)
    else match t[key]
      case String(s) => Ok(s)
      case _ => Err(InvalidString(key))
  }

  /** An optional float field: the default when absent. */
  function GetFloatOr(t: map<string, Value>, key: string, default: real): (r: Result<real>)
    ensures key !in t ==> r == Ok(default)
    ensures key in t ==> r == AsFloat(t[key], key)
  {
    if key in t then AsFloat(t[key], key) else Ok(default)
  }

  /** A required float field: an error naming the key when absent. */
  function GetFloat(t: map<string, Value>, key: string): (r: Result<real>)
    ensures key !in t ==> r == Err(MissingKey(key))
    ensures key in t ==> r == AsFloat(t[key], key)
  {
    if key in t then AsFloat(t[key], key) else Err(MissingKey(key))
  }

  /** A table with exactly one key has exactly one key. */
  lemma SingleKey(t: map<string, Value>, a: string, b: string)
    requires |t| == 1 && a in t && b in t
    ensures a == b
  {
    if a != b {
      assert {a, b} <= t.Keys;
      assert |{a, b}| == 2;
      SubsetCardinality({a, b}, t.Keys);
    }
  }

  lemma {:induction false} SubsetCardinality(s: set<string>, t: set<string>)
    requires s <= t
    ensures |s| <= |t|
  {
    if s != {} {
      var x :| x in s;
      SubsetCardinality(s - {x}, t - {x});
    }
  }

  /** A definition whose top level holds a single entry (the usual
      `return { UnitName = { ... } }`) is replaced by that entry's table. */
  function Unwrap(defs: map<string, Value>): (r: Result<map<string, Value>>)
    ensures |defs| != 1 ==> r == Ok(defs)
    ensures |defs| == 1 ==> forall k :: k in defs ==>
      (r.Ok? <==> defs[k].Table?) && (r.Ok? ==> r.value == defs[k].fields)
    ensures r.Err? ==> r.error == NotATable
  {
    if |defs| == 1 then
      var k :| k in defs;
      assert forall k' :: k' in defs ==> k' == k by {
        forall k' | k' in defs ensures k' == k { SingleKey(defs, k, k'); }
      }
      match defs[k]
      case Table(fields) => Ok(fields)
      case _ => Err(NotATable)
    else Ok(defs)
  }

  /** A negative upkeep makes the unit a net producer: its magnitude moves
      to production and the upkeep becomes zero. */
  function FoldUpkeep(make: real, upkeep: real): (r: (real, real))
    ensures r.1 >= 0.0
    ensures r.0 - r.1 == make - upkeep
    ensures upkeep >= 0.0 ==> r == (make, upkeep)
    ensures upkeep < 0.0 ==> r == (make - upkeep, 0.0)
  {
    if upkeep < 0.0 then (make - upkeep, 0.0) else (make, upkeep)
  }

  /** An optional float field that is absent or readable. */
  predicate FloatOrAbsent(t: map<string, Value>, key: string)
  {
    key in t ==> IsFloat(t[key])
  }

  /** A required float field that is present and readable. */
  predicate FloatPresent(t: map<string, Value>, key: string)
  {
    key in t && IsFloat(t[key])
  }

  /** The value of an optional float field, 0 when absent. */
  function FloatOrZero(t: map<string, Value>, key: string): (r: real)
    requires FloatOrAbsent(t, key)
  {
    if key in t then FloatOf(t[key]) else 0.0
  }

  /** Every field the loader reads has an acceptable type, and the three
      required ones are present. */
  predicate WellFormed(t: map<string, Value>)
  {
    && FloatOrAbsent(t, "energymake") && FloatOrAbsent(t, "energyupkeep")
    && ("name" in t ==> t["name"].String?)
    && FloatPresent(t, "buildtime") && FloatPresent(t, "metalcost") && FloatPresent(t, "energycost")
    && FloatOrAbsent(t, "workertime") && FloatOrAbsent(t, "windgenerator")
    && FloatOrAbsent(t, "energystorage") && FloatOrAbsent(t, "metalmake")
    && FloatOrAbsent(t, "metalstorage")
  }

  /** The unit a well-formed table describes, field by field. */
  predicate Describes(t: map<string, Value>, u: Unit)
    requires WellFormed(t)
  {
    var folded := FoldUpkeep(FloatOrZero(t, "energymake"), FloatOrZero(t, "energyupkeep"));
    && u.name == (if "name" in t then t["name"].s else "Unknown")
    && !u.alive && u.metal == 0.0 && u.energy == 0.0
    && u.buildtime == FloatOf(t["buildtime"])
    && u.mBuildCost == FloatOf(t["metalcost"])
    && u.eBuildCost == FloatOf(t["energycost"])
    && u.buildpower == FloatOrZero(t, "workertime")
    && u.ePerSecond == folded.0 && u.eCostPerSecond == folded.1
    && u.windEPerSecond == FloatOrZero(t, "windgenerator")
    && u.eStorage == FloatOrZero(t, "energystorage")
    && u.mPerSecond == FloatOrZero(t, "metalmake")
    && u.mStorage == FloatOrZero(t, "metalstorage")
  }

  /** The keys without a default. */
  predicate Required(key: string)
  {
    key == "buildtime" || key == "metalcost" || key == "energycost"
  }

  /** The error `e` names an actual defect of the table `t`: an unreadable
      float, an absent required key, or a `name` that is not a string. */
  predicate Faulty(t: map<string, Value>, e: LoadError)
  {
    match e
    case InvalidFloat(k) => k in ReadOrder && k != "name" && k in t && !IsFloat(t[k])
    case MissingKey(k) => k !in t && Required(k)
    case InvalidString(k) => k == "name" && k in t && !t[k].String?
    case NotATable => false
  }

  /** The keys in the order the loader reads them. */
  const ReadOrder: seq<string> :=
    ["energymake", "energyupkeep", "name", "buildtime", "metalcost", "energycost",
     "workertime", "windgenerator", "energystorage", "metalmake", "metalstorage"]

  /** The field `key` of `t` is acceptable to the loader. */
  predicate FieldOk(t: map<string, Value>, key: string)
  {
    if key == "name" then key in t ==> t[key].String?
    else if Required(key) then FloatPresent(t, key)
    else FloatOrAbsent(t, key)
  }

  /** Parses an evaluated definition into a unit template. Fields are read
      in the order rebar's `parse_definition` reads them, so the first offending key is the one reported. */
  function ParseDefinition(defs: map<string, Value>): (r: Result<Unit>)
    ensures r.Ok? <==> Unwrap(defs).Ok? && WellFormed(Unwrap(defs).value)
    ensures r.Err? ==>
      || (Unwrap(defs).Err? && r.error == NotATable)
      || (Unwrap(defs).Ok? && Faulty(Unwrap(defs).value, r.error))
    ensures r.Ok? ==> Describes(Unwrap(defs).value, r.value)
    ensures r.Ok? ==> !r.value.alive && r.value.metal == 0.0 && r.value.energy == 0.0
    ensures r.Ok? ==> r.value.eCostPerSecond >= 0.0
  {
    var t :- Unwrap(defs);
    var make :- GetFloatOr(t, "energymake", 0.0);
    var upkeep :- GetFloatOr(t, "energyupkeep", 0.0);
    var (ePerSec, eCost) := FoldUpkeep(make, upkeep);
    var name :- GetStringOr(t, "name", "Unknown");
    var buildtime :- GetFloat(t, "buildtime");
    var mBuildCost :- GetFloat(t, "metalcost");
    var eBuildCost :- GetFloat(t, "energycost");
    var buildpower :- GetFloatOr(t, "workertime", 0.0);
    var windEPerSecond :- GetFloatOr(t, "windgenerator", 0.0);
    var eStorage :- GetFloatOr(t, "energystorage", 0.0);
    var mPerSecond :- GetFloatOr(t, "metalmake", 0.0);
    var mStorage :- GetFloatOr(t, "metalstorage", 0.0);
    Ok(Unit(name, false, 0.0, 0.0, buildtime, mBuildCost, eBuildCost, buildpower,
            eCost, ePerSec, windEPerSecond, eStorage, mPerSecond, mStorage))
  }

  /** Loads a definition from a file with the given stem: a unit still named
      "Unknown" after parsing is named after the file instead. */
  function LoadDefinitionFromPath(defs: map<string, Value>, stem: string): (r: Result<Unit>)
    ensures r.Ok? <==> ParseDefinition(defs).Ok?
    ensures r.Err? ==> r == ParseDefinition(defs)
    ensures r.Ok? ==> r.value.name == (if ParseDefinition(defs).value.name == "Unknown" then stem
                                       else ParseDefinition(defs).value.name)
    ensures r.Ok? ==> r.value.(name := ParseDefinition(defs).value.name) == ParseDefinition(defs).value
  {
    var unit :- ParseDefinition(defs);
    if unit.name == "Unknown" then Ok(unit.(name := stem)) else Ok(unit)
  }

  /** A unit template as the loader produces one: not alive, nothing banked,
      and an upkeep that the folding has made non-negative. */
  predicate IsTemplate(u: Unit)
  {
    !u.alive && u.metal == 0.0 && u.energy == 0.0 && u.eCostPerSecond >= 0.0
  }

  /** A definition table that describes `u`, every quantity written as a
      Lua number. */
  function Encode(u: Unit): (t: map<string, Value>)
    ensures WellFormed(t)
  {
    map[
      "name" := String(u.name),
      "buildtime" := Number(u.buildtime),
      "metalcost" := Number(u.mBuildCost),
      "energycost" := Number(u.eBuildCost),
      "workertime" := Number(u.buildpower),
      "energymake" := Number(u.ePerSecond),
      "energyupkeep" := Number(u.eCostPerSecond),
      "windgenerator" := Number(u.windEPerSecond),
      "energystorage" := Number(u.eStorage),
      "metalmake" := Number(u.mPerSecond),
      "metalstorage" := Number(u.mStorage)
    ]
  }

  /** Every template survives being written as a definition (wrapped under
      its single top-level key, as definition files are) and parsed back. */
  lemma ParseEncoded(u: Unit, key: string)
    requires IsTemplate(u)
    ensures ParseDefinition(map[key := Table(Encode(u))]) == Ok(u)
  {
  }

  /** A definition giving only the three required costs, loaded from a file,
      is the unconstructed unit with those costs, named after the file. */
  lemma MinimalDefinition(key: string, buildtime: real, metalcost: real, energycost: real, stem: string)
    ensures LoadDefinitionFromPath(
        map[key := Table(map["buildtime" := Number(buildtime), "metalcost" := Number(metalcost),
                             "energycost" := Number(energycost)])], stem)
      == Ok(NewUnconstructed(metalcost, energycost, buildtime).(name := stem))
  {
  }

  /** A table is well-formed exactly when every field the loader reads is
      acceptable. */
  lemma WellFormedFields(t: map<string, Value>)
    ensures WellFormed(t) <==> forall i :: 0 <= i < |ReadOrder| ==> FieldOk(t, ReadOrder[i])
  {
    if forall i :: 0 <= i < |ReadOrder| ==> FieldOk(t, ReadOrder[i]) {
      assert FieldOk(t, ReadOrder[0]) && FieldOk(t, ReadOrder[1]) && FieldOk(t, ReadOrder[2]);
      assert FieldOk(t, ReadOrder[3]) && FieldOk(t, ReadOrder[4]) && FieldOk(t, ReadOrder[5]);
      assert FieldOk(t, ReadOrder[6]) && FieldOk(t, ReadOrder[7]) && FieldOk(t, ReadOrder[8]);
      assert FieldOk(t, ReadOrder[9]) && FieldOk(t, ReadOrder[10]);
    }
  }

  /** The reported error concerns the first unacceptable field in read
      order: every field read before it is acceptable, and it is not. */
  lemma FirstFaultReported(defs: map<string, Value>)
    requires Unwrap(defs).Ok? && ParseDefinition(defs).Err?
    ensures var t := Unwrap(defs).value; var e := ParseDefinition(defs).error;
      && Faulty(t, e) && e.key in ReadOrder
      && forall j :: 0 <= j < |ReadOrder| && ReadOrder[j] == e.key ==>
           !FieldOk(t, ReadOrder[j]) && forall i :: 0 <= i < j ==> FieldOk(t, ReadOrder[i])
  {
  }

  /** Fields are checked in the order rebar's `parse_definition` reads them, after the
      single-entry unwrapping: an unreadable `energymake` is reported
      whatever else is wrong, and a missing `buildtime` is reported ahead of
      the other costs and optional fields. */
  lemma ErrorOrder(defs: map<string, Value>)
    requires Unwrap(defs).Ok?
    ensures var t := Unwrap(defs).value;
      "energymake" in t && !IsFloat(t["energymake"]) ==>
        ParseDefinition(defs) == Err(InvalidFloat("energymake"))
    ensures var t := Unwrap(defs).value;
      (&& FloatOrAbsent(t, "energymake") && FloatOrAbsent(t, "energyupkeep")
       && ("name" in t ==> t["name"].String?) && "buildtime" !in t) ==>
        ParseDefinition(defs) == Err(MissingKey("buildtime"))
  {
  }

  /** A name that is present but not a string is refused, even when the
      file stem could have supplied one. */
  lemma NonStringNameRefused(defs: map<string, Value>, stem: string)
    requires Unwrap(defs).Ok?
    requires var t := Unwrap(defs).value;
      && FloatOrAbsent(t, "energymake") && FloatOrAbsent(t, "energyupkeep")
      && "name" in t && !t["name"].String?
    ensures LoadDefinitionFromPath(defs, stem) == Err(InvalidString("name"))
  {
  }
}
