/** DB injectors through the scope chain, and the precedence of request, code and
    stored values: internal/resolution/injector_merger.go. */
module InjectorMerging {
  import opened Common
  import opened InjectorContexts
  import CodeInjectors

  /** A nullable workspace id; None is the global scope. */
  type Scope = Option<Uuid>

  datatype Definition = Definition(id: Uuid, workspace: Scope, name: string)
  datatype Field = Field(name: string, defaultValue: Value, allowOverwrite: bool)
  datatype StoredValue = StoredValue(fieldName: string, workspace: Scope, raw: string)
  datatype FieldRule = FieldRule(defaultValue: Value, allowOverwrite: bool)

  type Rules = map<string, map<string, FieldRule>>

  /** What the three store queries of one resolution return, in their order. */
  datatype Catalog = Catalog(
    definitions: seq<Definition>,
    fields: map<Uuid, seq<Field>>,
    values: map<Uuid, seq<StoredValue>>)
  {
    function FieldsOf(id: Uuid): seq<Field> { if id in fields then fields[id] else [] }
    function ValuesOf(id: Uuid): seq<StoredValue> { if id in values then values[id] else [] }
  }

  // -------------------------------------------------- which definition of a name

  function ScopeIndex(ws: Scope, scopes: seq<Scope>): (i: nat)
    ensures i <= |scopes|
    ensures i < |scopes| ==> scopes[i] == ws
    ensures ws !in scopes[..i]
  {
    if scopes == [] || scopes[0] == ws then 0 else 1 + ScopeIndex(ws, scopes[1..])
  }

  /** The definition a scan of the list ends up with. */
  function Chosen(defs: seq<Definition>, scopes: seq<Scope>, name: string): Option<Definition> {
    if defs == [] then None
    else
      var earlier, last := Chosen(defs[..|defs| - 1], scopes, name), defs[|defs| - 1];
      if last.name == name
         && (earlier.None? || ScopeIndex(last.workspace, scopes) < ScopeIndex(earlier.value.workspace, scopes))
      then Some(last) else earlier
  }

  /** `d` is listed at `k`, no namesake is nearer, and none before it is as near. */
  ghost predicate FirstNearest(defs: seq<Definition>, scopes: seq<Scope>, d: Definition, k: int) {
    && 0 <= k < |defs| && defs[k] == d
    && (forall j | 0 <= j < |defs| && defs[j].name == d.name ::
          ScopeIndex(d.workspace, scopes) + (if j < k then 1 else 0) <= ScopeIndex(defs[j].workspace, scopes))
  }

  /** Of the definitions sharing a name, the first listed one nearest in the chain wins. */
  lemma {:induction false} ChosenIsFirstNearest(defs: seq<Definition>, scopes: seq<Scope>, name: string)
    ensures var chosen := Chosen(defs, scopes, name);
      if chosen.None? then forall i | 0 <= i < |defs| :: defs[i].name != name
      else chosen.value.name == name && exists k :: FirstNearest(defs, scopes, chosen.value, k)
  {
    if defs != [] {
      var n := |defs| - 1;
      var front := defs[..n];
      ChosenIsFirstNearest(front, scopes, name);
      var earlier, now := Chosen(front, scopes, name), Chosen(defs, scopes, name);
      assert forall j | 0 <= j < n :: front[j] == defs[j];
      if earlier.Some? {
        var k :| FirstNearest(front, scopes, earlier.value, k);
        assert FirstNearest(defs, scopes, now.value, if now == earlier then k else n);
      } else if now.Some? {
        assert FirstNearest(defs, scopes, now.value, n);
      }
    }
  }

  datatype DedupEntry = DedupEntry(def: Definition, index: nat)

  method BestByName(defs: seq<Definition>, scopes: seq<Scope>) returns (best: map<string, DedupEntry>)
    ensures forall name :: name in best <==> Chosen(defs, scopes, name).Some?
    ensures forall name | name in best :: Chosen(defs, scopes, name) == Some(best[name].def)
  {
    best := map[];
    for i := 0 to |defs|
      invariant forall name :: name in best <==> Chosen(defs[..i], scopes, name).Some?
      invariant forall name | name in best ::
        && Chosen(defs[..i], scopes, name) == Some(best[name].def)
        && best[name].index == ScopeIndex(best[name].def.workspace, scopes)
    {
      assert defs[..i + 1][..i] == defs[..i];
      var def := defs[i];
      var scopeIdx := ScopeIndex(def.workspace, scopes);
      if def.name !in best || scopeIdx < best[def.name].index {
        best := best[def.name := DedupEntry(def, scopeIdx)];
      }
    }
    assert defs[..|defs|] == defs;
  }

  // ----------------------------------------------------- which value of a field

  /** The value stored last for a field at exactly one scope. */
  function LastStored(values: seq<StoredValue>, field: string, scope: Scope): Option<StoredValue> {
    if values == [] then None
    else
      var last := values[|values| - 1];
      if last.fieldName == field && last.workspace == scope then Some(last)
      else LastStored(values[..|values| - 1], field, scope)
  }

  /** A scan of the chain: the nearest scope at which anything is stored. */
  function NearestStored(values: seq<StoredValue>, field: string, scopes: seq<Scope>): Option<StoredValue> {
    if scopes == [] then None
    else
      var here := LastStored(values, field, scopes[0]);
      if here.Some? then here else NearestStored(values, field, scopes[1..])
  }

  /** field name -> scope -> value: what buildValueIndex holds for one definition. */
  type FieldIndex = map<string, map<Scope, StoredValue>>

  function IndexLookup(index: FieldIndex, field: string, scope: Scope): Option<StoredValue> {
    if field in index && scope in index[field] then Some(index[field][scope]) else None
  }

  ghost predicate IndexesAll(index: FieldIndex, values: seq<StoredValue>) {
    forall f, s :: IndexLookup(index, f, s) == LastStored(values, f, s)
  }

  method IndexValues(values: seq<StoredValue>) returns (index: FieldIndex)
    ensures IndexesAll(index, values)
  {
    index := map[];
    for i := 0 to |values|
      invariant IndexesAll(index, values[..i])
    {
      ghost var before := index;
      var v := values[i];
      if v.fieldName !in index {
        index := index[v.fieldName := map[]];
      }
      index := index[v.fieldName := index[v.fieldName][v.workspace := v]];
      assert values[..i + 1][..i] == values[..i];
      forall f, s ensures IndexLookup(index, f, s) == LastStored(values[..i + 1], f, s) {
        assert IndexLookup(before, f, s) == LastStored(values[..i], f, s);
      }
    }
    assert values[..|values|] == values;
  }

  /** The three-level index over all definitions. */
  method BuildValueIndex(allValues: map<Uuid, seq<StoredValue>>) returns (idx: map<Uuid, FieldIndex>)
    ensures idx.Keys == allValues.Keys
    ensures forall id | id in idx :: IndexesAll(idx[id], allValues[id])
  {
    idx := map[];
    var rest := allValues.Keys;
    while rest != {}
      invariant rest <= allValues.Keys && idx.Keys == allValues.Keys - rest
      invariant forall id | id in idx :: IndexesAll(idx[id], allValues[id])
    {
      var id :| id in rest;
      var index := IndexValues(allValues[id]);
      idx, rest := idx[id := index], rest - {id};
    }
  }

  /** The indexed lookup; `parse` is parseJSONValue. */
  function ResolveFieldValueIndexed(
      field: string, scopes: seq<Scope>, index: FieldIndex, parse: string -> Value): Value
  {
    if scopes == [] then Nil
    else
      var here := IndexLookup(index, field, scopes[0]);
      if here.Some? then parse(here.value.raw) else ResolveFieldValueIndexed(field, scopes[1..], index, parse)
  }

  /** The index answers what the scan answers. */
  lemma {:induction false} IndexedLookupIsScan(
      field: string, scopes: seq<Scope>, index: FieldIndex, values: seq<StoredValue>, parse: string -> Value)
    requires IndexesAll(index, values)
    ensures ResolveFieldValueIndexed(field, scopes, index, parse)
      == match NearestStored(values, field, scopes) case Some(v) => parse(v.raw) case None => Nil
  {
    if scopes != [] {
      assert IndexLookup(index, field, scopes[0]) == LastStored(values, field, scopes[0]);
      IndexedLookupIsScan(field, scopes[1..], index, values, parse);
    }
  }

  ghost predicate StoredFirstAt(values: seq<StoredValue>, field: string, scopes: seq<Scope>, v: StoredValue, k: int) {
    && 0 <= k < |scopes| && LastStored(values, field, scopes[k]) == Some(v)
    && forall j | 0 <= j < k :: LastStored(values, field, scopes[j]).None?
  }

  /** What a scan finds was stored last at a scope of the chain, and nothing at all
      is stored at any nearer scope. */
  lemma {:induction false} NearestStoredIsNearest(values: seq<StoredValue>, field: string, scopes: seq<Scope>)
    ensures var found := NearestStored(values, field, scopes);
      if found.None? then forall s | s in scopes :: LastStored(values, field, s).None?
      else exists k :: StoredFirstAt(values, field, scopes, found.value, k)
  {
    var found := NearestStored(values, field, scopes);
    if scopes != [] && LastStored(values, field, scopes[0]).Some? {
      assert StoredFirstAt(values, field, scopes, found.value, 0);
    } else if scopes != [] {
      NearestStoredIsNearest(values, field, scopes[1..]);
      var rest := NearestStored(values, field, scopes[1..]);
      if rest.Some? {
        assert found == rest;
        var k :| StoredFirstAt(values, field, scopes[1..], rest.value, k);
        assert forall j | 0 <= j < |scopes[1..]| :: scopes[1..][j] == scopes[j + 1];
        forall j | 0 <= j < k + 1 ensures LastStored(values, field, scopes[j]).None? {
          assert j > 0 ==> scopes[1..][j - 1] == scopes[j];
        }
        assert StoredFirstAt(values, field, scopes, found.value, k + 1);
      }
    }
  }

  function LastField(fields: seq<Field>, name: string): Option<Field> {
    if fields == [] then None
    else
      var last := fields[|fields| - 1];
      if last.name == name then Some(last) else LastField(fields[..|fields| - 1], name)
  }

  /** The value of a defined field: the nearest stored one, a stored null or an
      absent one giving way to the field default. */
  function FieldValue(field: Field, values: seq<StoredValue>, scopes: seq<Scope>, parse: string -> Value): Value {
    match NearestStored(values, field.name, scopes)
    case Some(v) => if parse(v.raw) == Nil then field.defaultValue else parse(v.raw)
    case None => field.defaultValue
  }

  /** A null stored nearby hides whatever farther scopes store. */
  lemma {:induction false} NullHidesFartherScopes(
      field: Field, values: seq<StoredValue>, near: Scope, far: seq<Scope>, parse: string -> Value)
    requires LastStored(values, field.name, near).Some?
    requires parse(LastStored(values, field.name, near).value.raw) == Nil
    ensures FieldValue(field, values, [near] + far, parse) == field.defaultValue
  {
    assert ([near] + far)[1..] == far;
  }

  // ------------------------------------------------------------ DB resolution

  function Get<V>(m: map<string, V>, key: string): Option<V> {
    if key in m then Some(m[key]) else None
  }

  function At<V>(fields: Option<map<string, V>>, field: string): Option<V> {
    if fields.Some? then Get(fields.value, field) else None
  }

  function Lookup<V>(m: map<string, map<string, V>>, name: string, field: string): Option<V> {
    At(Get(m, name), field)
  }

  ghost predicate SameShape<V, W>(a: map<string, map<string, V>>, b: map<string, map<string, W>>) {
    a.Keys == b.Keys && forall n | n in a :: a[n].Keys == b[n].Keys
  }

  /** The stored value and the rule of a field, straight from the catalog. */
  function DbField(cat: Catalog, scopes: seq<Scope>, parse: string -> Value, name: string, field: string)
    : Option<(Value, FieldRule)>
  {
    match Chosen(cat.definitions, scopes, name)
    case None => None
    case Some(def) =>
      match LastField(cat.FieldsOf(def.id), field)
      case None => None
      case Some(f) =>
        Some((FieldValue(f, cat.ValuesOf(def.id), scopes, parse), FieldRule(f.defaultValue, f.allowOverwrite)))
  }

  /** `defaults` and `rules` hold exactly what the catalog says, field by field. */
  ghost predicate ResolvedFrom(
      cat: Catalog, scopes: seq<Scope>, parse: string -> Value, defaults: Injectors, rules: Rules)
  {
    && SameShape(defaults, rules)
    && (forall n :: n in defaults <==> Chosen(cat.definitions, scopes, n).Some?)
    && (forall n, f :: Lookup(defaults, n, f)
          == match DbField(cat, scopes, parse, n, f) case Some(p) => Some(p.0) case None => None)
    && (forall n, f :: Lookup(rules, n, f)
          == match DbField(cat, scopes, parse, n, f) case Some(p) => Some(p.1) case None => None)
  }

  /** The inner loop: all fields of one definition. */
  method ResolveDefinition(
      fields: seq<Field>, scopes: seq<Scope>, index: FieldIndex, ghost values: seq<StoredValue>, parse: string -> Value)
    returns (result: Fields, rules: map<string, FieldRule>)
    requires IndexesAll(index, values)
    ensures result.Keys == rules.Keys
    ensures forall f :: f in result <==> LastField(fields, f).Some?
    ensures forall f | f in result :: var field := LastField(fields, f).value;
      && result[f] == FieldValue(field, values, scopes, parse)
      && rules[f] == FieldRule(field.defaultValue, field.allowOverwrite)
  {
    result, rules := map[], map[];
    for i := 0 to |fields|
      invariant result.Keys == rules.Keys
      invariant forall f :: f in result <==> LastField(fields[..i], f).Some?
      invariant forall f | f in result :: var field := LastField(fields[..i], f).value;
        && field.name == f
        && result[f] == FieldValue(field, values, scopes, parse)
        && rules[f] == FieldRule(field.defaultValue, field.allowOverwrite)
    {
      var field := fields[i];
      IndexedLookupIsScan(field.name, scopes, index, values, parse);
      var resolved := ResolveFieldValueIndexed(field.name, scopes, index, parse);
      if resolved == Nil {
        resolved := field.defaultValue;
      }
      result := result[field.name := resolved];
      rules := rules[field.name := FieldRule(field.defaultValue, field.allowOverwrite)];
      assert fields[..i + 1][..i] == fields[..i];
    }
    assert fields[..|fields|] == fields;
  }

  method ResolveDBForScopes(cat: Catalog, scopes: seq<Scope>, parse: string -> Value)
    returns (result: Injectors, fieldRules: Rules)
    ensures ResolvedFrom(cat, scopes, parse, result, fieldRules)
  {
    var best := BestByName(cat.definitions, scopes);
    var valIdx := BuildValueIndex(cat.values);
    result, fieldRules := map[], map[];
    var rest := best.Keys;
    while rest != {}
      invariant rest <= best.Keys && result.Keys == fieldRules.Keys == best.Keys - rest
      invariant forall n | n in result :: NameResolved(cat, scopes, parse, n, result[n], fieldRules[n])
    {
      var name :| name in rest;
      var def := best[name].def;
      var index := if def.id in valIdx then valIdx[def.id] else map[];
      var values, rules := ResolveDefinition(cat.FieldsOf(def.id), scopes, index, cat.ValuesOf(def.id), parse);
      result, fieldRules, rest := result[name := values], fieldRules[name := rules], rest - {name};
      assert NameResolved(cat, scopes, parse, name, values, rules);
    }
    NamesResolve(cat, scopes, parse, result, fieldRules);
  }

  /** Resolving every chosen name resolves the catalog. */
  lemma {:induction false} NamesResolve(cat: Catalog, scopes: seq<Scope>, parse: string -> Value, result: Injectors, rules: Rules)
    requires result.Keys == rules.Keys && forall n :: n in result <==> Chosen(cat.definitions, scopes, n).Some?
    requires forall n | n in result :: NameResolved(cat, scopes, parse, n, result[n], rules[n])
    ensures ResolvedFrom(cat, scopes, parse, result, rules)
  {
    forall n | n in result ensures result[n].Keys == rules[n].Keys {
      assert NameResolved(cat, scopes, parse, n, result[n], rules[n]);
      forall f ensures f in result[n] <==> f in rules[n] {
        assert DbField(cat, scopes, parse, n, f).Some? <==> f in result[n];
      }
    }
  }

  ghost predicate NameResolved(
      cat: Catalog, scopes: seq<Scope>, parse: string -> Value, n: string, values: Fields, rules: map<string, FieldRule>)
  {
    forall f :: match DbField(cat, scopes, parse, n, f)
      case Some(p) => f in values && f in rules && values[f] == p.0 && rules[f] == p.1
      case None => f !in values && f !in rules
  }

  // ------------------------------------------------- what a DB resolution answers

  predicate IsFor(v: StoredValue, field: string, scope: Scope) {
    v.fieldName == field && v.workspace == scope
  }

  /** `values[i]` is stored for the field at the scope, and nothing later is. */
  ghost predicate IsLastStored(values: seq<StoredValue>, field: string, scope: Scope, i: int) {
    && 0 <= i < |values| && IsFor(values[i], field, scope)
    && forall j | i < j < |values| :: !IsFor(values[j], field, scope)
  }

  ghost predicate NothingStored(values: seq<StoredValue>, field: string, scope: Scope) {
    forall j | 0 <= j < |values| :: !IsFor(values[j], field, scope)
  }

  lemma {:induction false} LastStoredIsLast(values: seq<StoredValue>, field: string, scope: Scope, i: int)
    requires IsLastStored(values, field, scope, i)
    ensures LastStored(values, field, scope) == Some(values[i])
  {
    var n := |values| - 1;
    if i < n {
      assert !IsFor(values[n], field, scope);
      LastStoredIsLast(values[..n], field, scope, i);
    }
  }

  lemma {:induction false} NothingStoredIsNone(values: seq<StoredValue>, field: string, scope: Scope)
    requires NothingStored(values, field, scope)
    ensures LastStored(values, field, scope).None?
  {
    if values != [] {
      assert !IsFor(values[|values| - 1], field, scope);
      NothingStoredIsNone(values[..|values| - 1], field, scope);
    }
  }

  /** `fields[j]` has the name, and no later field has. */
  ghost predicate IsLastField(fields: seq<Field>, name: string, j: int) {
    && 0 <= j < |fields| && fields[j].name == name && forall k | j < k < |fields| :: fields[k].name != name
  }

  lemma {:induction false} LastFieldIsLast(fields: seq<Field>, name: string)
    ensures forall j | IsLastField(fields, name, j) :: LastField(fields, name) == Some(fields[j])
    ensures LastField(fields, name).None? <==> forall k | 0 <= k < |fields| :: fields[k].name != name
  {
    if fields != [] {
      var n := |fields| - 1;
      LastFieldIsLast(fields[..n], name);
      forall j | IsLastField(fields, name, j) ensures LastField(fields, name) == Some(fields[j]) {
        if j < n {
          assert IsLastField(fields[..n], name, j);
        }
      }
      assert forall k | 0 <= k < n :: fields[..n][k] == fields[k];
    }
  }

  /** `values[i]` decides the field: it is the last one stored for it at scope k of the
      chain, and nothing is stored for it at a nearer scope. */
  ghost predicate Decides(values: seq<StoredValue>, field: string, scopes: seq<Scope>, k: int, i: int) {
    && 0 <= k < |scopes| && IsLastStored(values, field, scopes[k], i)
    && forall j | 0 <= j < k :: NothingStored(values, field, scopes[j])
  }

  lemma {:induction false} DecidingIsNearest(values: seq<StoredValue>, field: string, scopes: seq<Scope>, k: int, i: int)
    requires Decides(values, field, scopes, k, i)
    ensures NearestStored(values, field, scopes) == Some(values[i])
  {
    if k == 0 {
      LastStoredIsLast(values, field, scopes[0], i);
    } else {
      assert forall j | 0 <= j < k :: scopes[1..][j] == scopes[j + 1];
      forall j | 0 <= j < k - 1 ensures NothingStored(values, field, scopes[1..][j]) {
        assert NothingStored(values, field, scopes[j + 1]);
      }
      NothingStoredIsNone(values, field, scopes[0]);
      DecidingIsNearest(values, field, scopes[1..], k - 1, i);
    }
  }

  lemma {:induction false} NothingNearest(values: seq<StoredValue>, field: string, scopes: seq<Scope>)
    requires forall s | s in scopes :: NothingStored(values, field, s)
    ensures NearestStored(values, field, scopes).None?
  {
    if scopes != [] {
      assert scopes[0] in scopes;
      NothingStoredIsNone(values, field, scopes[0]);
      NothingNearest(values, field, scopes[1..]);
    }
  }

  /** The definition, the field and the values a name and field resolve by. */
  ghost predicate Resolves(
      cat: Catalog, scopes: seq<Scope>, name: string, d: int, field: Field, j: int, values: seq<StoredValue>)
  {
    && 0 <= d < |cat.definitions| && cat.definitions[d].name == name
    && FirstNearest(cat.definitions, scopes, cat.definitions[d], d)
    && cat.definitions[d].id in cat.fields && IsLastField(cat.fields[cat.definitions[d].id], field.name, j)
    && cat.fields[cat.definitions[d].id][j] == field
    && values == if cat.definitions[d].id in cat.values then cat.values[cat.definitions[d].id] else []
  }

  lemma {:induction false} ChosenIsUnique(defs: seq<Definition>, scopes: seq<Scope>, name: string, d: int)
    requires 0 <= d < |defs| && defs[d].name == name && FirstNearest(defs, scopes, defs[d], d)
    ensures Chosen(defs, scopes, name) == Some(defs[d])
  {
    ChosenIsFirstNearest(defs, scopes, name);
    var chosen := Chosen(defs, scopes, name).value;
    var k :| FirstNearest(defs, scopes, chosen, k);
    assert defs[k].name == name;
  }

  /** The rule of a field is that of the field listed last under its name. */
  lemma {:induction false} RuleIs(
      cat: Catalog, scopes: seq<Scope>, parse: string -> Value, defaults: Injectors, rules: Rules,
      name: string, d: int, field: Field, j: int, values: seq<StoredValue>)
    requires ResolvedFrom(cat, scopes, parse, defaults, rules) && Resolves(cat, scopes, name, d, field, j, values)
    ensures Lookup(rules, name, field.name) == Some(FieldRule(field.defaultValue, field.allowOverwrite))
    ensures DbField(cat, scopes, parse, name, field.name)
      == Some((FieldValue(field, values, scopes, parse), FieldRule(field.defaultValue, field.allowOverwrite)))
  {
    ChosenIsUnique(cat.definitions, scopes, name, d);
    LastFieldIsLast(cat.fields[cat.definitions[d].id], field.name);
  }

  /** The answer is the value decided on, unless it is null. */
  lemma {:induction false} StoredValueAnswers(
      cat: Catalog, scopes: seq<Scope>, parse: string -> Value, defaults: Injectors, rules: Rules,
      name: string, d: int, field: Field, j: int, values: seq<StoredValue>, k: int, i: int)
    requires ResolvedFrom(cat, scopes, parse, defaults, rules) && Resolves(cat, scopes, name, d, field, j, values)
    requires Decides(values, field.name, scopes, k, i)
    ensures Lookup(defaults, name, field.name)
      == Some(if parse(values[i].raw) == Nil then field.defaultValue else parse(values[i].raw))
  {
    RuleIs(cat, scopes, parse, defaults, rules, name, d, field, j, values);
    DecidingIsNearest(values, field.name, scopes, k, i);
  }

  /** With nothing stored in the chain it is the field default. */
  lemma {:induction false} DefaultAnswers(
      cat: Catalog, scopes: seq<Scope>, parse: string -> Value, defaults: Injectors, rules: Rules,
      name: string, d: int, field: Field, j: int, values: seq<StoredValue>)
    requires ResolvedFrom(cat, scopes, parse, defaults, rules) && Resolves(cat, scopes, name, d, field, j, values)
    requires forall s | s in scopes :: NothingStored(values, field.name, s)
    ensures Lookup(defaults, name, field.name) == Some(field.defaultValue)
  {
    RuleIs(cat, scopes, parse, defaults, rules, name, d, field, j, values);
    NothingNearest(values, field.name, scopes);
  }

  /** Those are all cases: where anything is stored in the chain, some value decides. */
  lemma {:induction false} SomeValueDecides(values: seq<StoredValue>, field: string, scopes: seq<Scope>) returns (k: int, i: int)
    requires !(forall s | s in scopes :: NothingStored(values, field, s))
    ensures Decides(values, field, scopes, k, i)
  {
    if NothingStored(values, field, scopes[0]) {
      assert forall s | s in scopes :: s == scopes[0] || s in scopes[1..];
      k, i := SomeValueDecides(values, field, scopes[1..]);
      k := k + 1;
      forall j | 0 <= j < k ensures NothingStored(values, field, scopes[j]) {
        assert j > 0 ==> scopes[1..][j - 1] == scopes[j];
      }
    } else {
      k := 0;
      i := SomeLastStored(values, field, scopes[0]);
    }
  }

  lemma {:induction false} SomeLastStored(values: seq<StoredValue>, field: string, scope: Scope) returns (i: int)
    requires !NothingStored(values, field, scope)
    ensures IsLastStored(values, field, scope, i)
  {
    i := |values| - 1;
    if !IsFor(values[i], field, scope) {
      var n := i;
      assert forall j | 0 <= j < n :: values[..n][j] == values[j];
      assert !NothingStored(values[..n], field, scope);
      i := SomeLastStored(values[..n], field, scope);
    }
  }

  /** A name or field the catalog does not define has neither value nor rule. */
  lemma {:induction false} UndefinedIsAbsent(
      cat: Catalog, scopes: seq<Scope>, parse: string -> Value, defaults: Injectors, rules: Rules, name: string, field: string)
    requires ResolvedFrom(cat, scopes, parse, defaults, rules)
    requires forall d, j | 0 <= d < |cat.definitions| && cat.definitions[d].name == name && cat.definitions[d].id in cat.fields
      && 0 <= j < |cat.fields[cat.definitions[d].id]| :: cat.fields[cat.definitions[d].id][j].name != field
    ensures Lookup(defaults, name, field).None? && Lookup(rules, name, field).None?
  {
    ChosenIsFirstNearest(cat.definitions, scopes, name);
    var chosen := Chosen(cat.definitions, scopes, name);
    if chosen.Some? {
      var k :| FirstNearest(cat.definitions, scopes, chosen.value, k);
      LastFieldIsLast(cat.FieldsOf(chosen.value.id), field);
    }
    assert DbField(cat, scopes, parse, name, field).None?;
  }

  // ------------------------------------------------------------------- precedence

  /** The precedence, for one field: its rule if the DB schema defines it, and what
      the chain stores, the request sends and the code injectors return for it. */
  function Effective(
      rule: Option<FieldRule>, stored: Option<Value>, request: Option<Value>, code: Option<Value>, global: bool)
    : Option<Value>
  {
    match rule
    case None => code
    case Some(r) =>
      if r.allowOverwrite then Some(request.GetOr(code.GetOr(r.defaultValue)))
      else if global then Some(r.defaultValue)
      else stored
  }

  /** The rule loop alone leaves undefined fields as they are stored. */
  function Ruled(
      rule: Option<FieldRule>, stored: Option<Value>, request: Option<Value>, code: Option<Value>, global: bool)
    : Option<Value>
  {
    if rule.None? then stored else Effective(rule, stored, request, code, global)
  }

  /** The inner loop over the rules of one injector. */
  method ApplyRulesOf(
      name: string, fields: Fields, rules: map<string, FieldRule>, request: Injectors, code: Injectors, global: bool)
    returns (result: Fields)
    ensures forall f ::
      Get(result, f) == Ruled(Get(rules, f), Get(fields, f), Lookup(request, name, f), Lookup(code, name, f), global)
  {
    result := fields;
    var rest := rules.Keys;
    while rest != {}
      invariant rest <= rules.Keys
      invariant forall f | f in rest :: Get(result, f) == Get(fields, f)
      invariant forall f | f !in rest ::
        Get(result, f) == Ruled(Get(rules, f), Get(fields, f), Lookup(request, name, f), Lookup(code, name, f), global)
    {
      var f :| f in rest;
      rest := rest - {f};
      if !rules[f].allowOverwrite {
        if global {
          result := result[f := rules[f].defaultValue];
        }
      } else if Lookup(request, name, f).Some? {
        result := result[f := request[name][f]];
      } else if Lookup(code, name, f).Some? {
        result := result[f := code[name][f]];
      } else {
        result := result[f := rules[f].defaultValue];
      }
    }
  }

  /** What the rule loop makes of one injector's fields. */
  ghost predicate AfterRules(
      n: string, stored: Option<Fields>, rules: Option<map<string, FieldRule>>,
      request: Injectors, code: Injectors, global: bool, after: Option<Fields>)
  {
    && (after.Some? <==> stored.Some? || rules.Some?)
    && forall f ::
         At(after, f) == Ruled(At(rules, f), At(stored, f), Lookup(request, n, f), Lookup(code, n, f), global)
  }

  /** The rule loop: lines 250-271, and with `global` applyGlobalFieldRules. */
  method ApplyFieldRules(defaults: Injectors, fieldRules: Rules, request: Injectors, code: Injectors, global: bool)
    returns (result: Injectors)
    ensures forall n :: AfterRules(n, Get(defaults, n), Get(fieldRules, n), request, code, global, Get(result, n))
  {
    result := defaults;
    var rest := fieldRules.Keys;
    while rest != {}
      invariant rest <= fieldRules.Keys
      invariant forall n | n in rest :: Get(result, n) == Get(defaults, n)
      invariant forall n | n !in rest ::
        AfterRules(n, Get(defaults, n), Get(fieldRules, n), request, code, global, Get(result, n))
    {
      var name :| name in rest;
      rest := rest - {name};
      var stored := Get(result, name).GetOr(map[]);
      var fields := ApplyRulesOf(name, stored, fieldRules[name], request, code, global);
      result := result[name := fields];
    }
  }

  /** The inner loop over the fields a code injector returned. */
  method AddUndefined(fields: Fields, defined: set<string>, extra: Fields) returns (result: Fields)
    ensures result == fields + map f | f in extra && f !in defined :: extra[f]
  {
    result := fields;
    var rest := extra.Keys;
    while rest != {}
      invariant rest <= extra.Keys
      invariant result == fields + map f | f in extra && f !in rest && f !in defined :: extra[f]
    {
      var f :| f in rest;
      rest := rest - {f};
      if f !in defined {
        result := result[f := extra[f]];
      }
    }
  }

  /** What adding code-only fields makes of one injector's fields. */
  ghost predicate AfterCode(
      into: Option<Fields>, rules: Option<map<string, FieldRule>>, code: Option<Fields>, after: Option<Fields>)
  {
    && (after.Some? <==> into.Some? || code.Some?)
    && forall f :: At(after, f) == (
         if into.None? || (rules.Some? && At(rules, f).None? && At(code, f).Some?) then At(code, f) else At(into, f))
  }

  /** mergeCodeOnlyFields: lines 273-286. Fields the DB schema does not define pass through. */
  method MergeCodeOnlyFields(into: Injectors, fieldRules: Rules, code: Injectors) returns (result: Injectors)
    ensures forall n :: AfterCode(Get(into, n), Get(fieldRules, n), Get(code, n), Get(result, n))
  {
    result := into;
    var rest := code.Keys;
    while rest != {}
      invariant rest <= code.Keys
      invariant forall n | n in rest :: Get(result, n) == Get(into, n)
      invariant forall n | n !in rest :: AfterCode(Get(into, n), Get(fieldRules, n), Get(code, n), Get(result, n))
    {
      var name :| name in rest;
      rest := rest - {name};
      if name !in result {
        result := result[name := code[name]];
      } else if name in fieldRules {
        var fields := AddUndefined(result[name], fieldRules[name].Keys, code[name]);
        assert AfterCode(Some(result[name]), Some(fieldRules[name]), Some(code[name]), Some(fields));
        result := result[name := fields];
      }
    }
  }

  /** `result` holds, field by field, what the precedence says, and nothing else. */
  ghost predicate MergedFrom(
      defaults: Injectors, rules: Rules, request: Injectors, code: Injectors, global: bool, result: Injectors)
  {
    && result.Keys == rules.Keys + code.Keys
    && forall n, f :: Lookup(result, n, f) ==
         Effective(Lookup(rules, n, f), Lookup(defaults, n, f), Lookup(request, n, f), Lookup(code, n, f), global)
  }

  method Merge(defaults: Injectors, rules: Rules, request: Injectors, code: Injectors, global: bool)
    returns (result: Injectors)
    requires SameShape(defaults, rules)
    ensures MergedFrom(defaults, rules, request, code, global, result)
  {
    var ruled := ApplyFieldRules(defaults, rules, request, code, global);
    result := MergeCodeOnlyFields(ruled, rules, code);
    forall n
      ensures n in result <==> n in rules || n in code
      ensures forall f ::
        Lookup(result, n, f)
        == Effective(Lookup(rules, n, f), Lookup(defaults, n, f), Lookup(request, n, f), Lookup(code, n, f), global)
    {
      assert AfterRules(n, Get(defaults, n), Get(rules, n), request, code, global, Get(ruled, n));
      assert AfterCode(Get(ruled, n), Get(rules, n), Get(code, n), Get(result, n));
      assert n in defaults <==> n in rules;
      assert forall f :: Lookup(rules, n, f).Some? <==> Lookup(defaults, n, f).Some?;
    }
  }

  // ------------------------------------------------- what the precedence guarantees

  lemma {:induction false} LookupsDetermine<V>(a: map<string, map<string, V>>, b: map<string, map<string, V>>)
    requires a.Keys == b.Keys && forall n, f :: Lookup(a, n, f) == Lookup(b, n, f)
    ensures a == b
  {
    forall n | n in a ensures a[n] == b[n] {
      forall f ensures Get(a[n], f) == Get(b[n], f) {
        assert Lookup(a, n, f) == Lookup(b, n, f);
      }
      assert forall f :: f in a[n] <==> Get(a[n], f).Some?;
      assert forall f :: f in b[n] <==> Get(b[n], f).Some?;
      assert forall f | f in a[n] :: Get(a[n], f) == Some(a[n][f]);
    }
  }

  /** The precedence leaves nothing open: it determines the whole map. */
  lemma {:induction false} MergeIsDetermined(
      defaults: Injectors, rules: Rules, request: Injectors, code: Injectors, global: bool, a: Injectors, b: Injectors)
    requires MergedFrom(defaults, rules, request, code, global, a)
    requires MergedFrom(defaults, rules, request, code, global, b)
    ensures a == b
  {
    LookupsDetermine(a, b);
  }

  /** Nor does the catalog: the order in which names are ranged over is irrelevant. */
  lemma {:induction false} DbResolutionIsDetermined(
      cat: Catalog, scopes: seq<Scope>, parse: string -> Value, d: Injectors, r: Rules, d': Injectors, r': Rules)
    requires ResolvedFrom(cat, scopes, parse, d, r) && ResolvedFrom(cat, scopes, parse, d', r')
    ensures d == d' && r == r'
  {
    LookupsDetermine(d, d');
    LookupsDetermine(r, r');
  }

  ghost predicate Overwriteable(rules: Rules, n: string, f: string) {
    Lookup(rules, n, f).Some? && Lookup(rules, n, f).value.allowOverwrite
  }

  lemma {:induction false} RequestChangesOneField(
      defaults: Injectors, rules: Rules, code: Injectors, global: bool,
      request: Injectors, request': Injectors, result: Injectors, result': Injectors, n: string, f: string)
    requires SameShape(defaults, rules)
    requires MergedFrom(defaults, rules, request, code, global, result)
    requires MergedFrom(defaults, rules, request', code, global, result')
    ensures Lookup(result, n, f).Some? <==> Lookup(result', n, f).Some?
    ensures !Overwriteable(rules, n, f) ==> Lookup(result, n, f) == Lookup(result', n, f)
  {
    var rule, stored := Lookup(rules, n, f), Lookup(defaults, n, f);
    assert rule.Some? <==> stored.Some?;
    assert Lookup(result, n, f) == Effective(rule, stored, Lookup(request, n, f), Lookup(code, n, f), global);
    assert Lookup(result', n, f) == Effective(rule, stored, Lookup(request', n, f), Lookup(code, n, f), global);
  }

  /** Request data never creates or removes a name or a field, and changes no
      field except those the rules declare overwriteable. */
  lemma {:induction false} RequestOnlyOverwrites(
      defaults: Injectors, rules: Rules, code: Injectors, global: bool,
      request: Injectors, request': Injectors, result: Injectors, result': Injectors)
    requires SameShape(defaults, rules)
    requires MergedFrom(defaults, rules, request, code, global, result)
    requires MergedFrom(defaults, rules, request', code, global, result')
    ensures SameShape(result, result')
    ensures forall n, f | !Overwriteable(rules, n, f) :: Lookup(result, n, f) == Lookup(result', n, f)
  {
    forall n, f
      ensures Lookup(result, n, f).Some? <==> Lookup(result', n, f).Some?
      ensures !Overwriteable(rules, n, f) ==> Lookup(result, n, f) == Lookup(result', n, f)
    {
      RequestChangesOneField(defaults, rules, code, global, request, request', result, result', n, f);
    }
    SamePresence(result, result');
  }

  lemma {:induction false} SamePresence<V>(a: map<string, map<string, V>>, b: map<string, map<string, V>>)
    requires a.Keys == b.Keys && forall n, f :: Lookup(a, n, f).Some? <==> Lookup(b, n, f).Some?
    ensures SameShape(a, b)
  {
    forall n | n in a ensures a[n].Keys == b[n].Keys {
      forall f ensures f in a[n] <==> f in b[n] {
        assert Lookup(a, n, f).Some? <==> Lookup(b, n, f).Some?;
      }
    }
  }

  /** The doc comment's reading: overrides on top of the resolved base value. */
  function OnTopOfStored(
      rule: Option<FieldRule>, stored: Option<Value>, request: Option<Value>, code: Option<Value>): Option<Value>
  {
    match rule
    case None => code
    case Some(r) =>
      if r.allowOverwrite && request.Some? then request
      else if r.allowOverwrite && code.Some? then code
      else stored
  }

  /** The code drops the stored value of an overwriteable field that nobody
      overrides, so it meets the doc comment exactly when every such field
      stores its default. */
  lemma {:induction false} OverridesSitOnStoredValuesIff(
      defaults: Injectors, rules: Rules, request: Injectors, code: Injectors, result: Injectors)
    requires SameShape(defaults, rules) && MergedFrom(defaults, rules, request, code, false, result)
    ensures
      (forall n, f :: Lookup(result, n, f)
         == OnTopOfStored(Lookup(rules, n, f), Lookup(defaults, n, f), Lookup(request, n, f), Lookup(code, n, f)))
      <==>
      (forall n, f | Overwriteable(rules, n, f) && Lookup(request, n, f).None? && Lookup(code, n, f).None? ::
         Lookup(defaults, n, f) == Some(Lookup(rules, n, f).value.defaultValue))
  {
    forall n, f
      ensures (Lookup(result, n, f)
        == OnTopOfStored(Lookup(rules, n, f), Lookup(defaults, n, f), Lookup(request, n, f), Lookup(code, n, f)))
      <==>
      (Overwriteable(rules, n, f) && Lookup(request, n, f).None? && Lookup(code, n, f).None? ==>
         Lookup(defaults, n, f) == Some(Lookup(rules, n, f).value.defaultValue))
    {
      assert Lookup(result, n, f)
        == Effective(Lookup(rules, n, f), Lookup(defaults, n, f), Lookup(request, n, f), Lookup(code, n, f), false);
    }
  }

  /** A workspace that stores "Acme" in an overwriteable field with default "Senda"
      gets "Senda" when nobody overrides it. */
  lemma {:induction false} StoredValueIsDropped(result: Injectors)
    requires MergedFrom(
      map["brand" := map["name" := Val("Acme")]], map["brand" := map["name" := FieldRule(Val("Senda"), true)]],
      map[], map[], false, result)
    ensures Lookup(result, "brand", "name") == Some(Val("Senda"))
  {
    var rules := map["brand" := map["name" := FieldRule(Val("Senda"), true)]];
    assert Lookup(rules, "brand", "name") == Some(FieldRule(Val("Senda"), true));
    assert Lookup<Value>(map[], "brand", "name") == None;
  }

  /** The global path ignores stored values altogether, so it agrees with the
      workspace path on the same data exactly when every locked field stores its default. */
  lemma {:induction false} GlobalAgreesIff(
      defaults: Injectors, rules: Rules, request: Injectors, code: Injectors, result: Injectors, global: Injectors)
    requires SameShape(defaults, rules)
    requires MergedFrom(defaults, rules, request, code, false, result)
    requires MergedFrom(defaults, rules, request, code, true, global)
    ensures result == global <==>
      forall n, f | Lookup(rules, n, f).Some? && !Overwriteable(rules, n, f) ::
        Lookup(defaults, n, f) == Some(Lookup(rules, n, f).value.defaultValue)
  {
    forall n, f
      ensures Lookup(result, n, f) == Lookup(global, n, f) <==>
        (Lookup(rules, n, f).Some? && !Overwriteable(rules, n, f) ==>
           Lookup(defaults, n, f) == Some(Lookup(rules, n, f).value.defaultValue))
    {
    }
    if forall n, f :: Lookup(result, n, f) == Lookup(global, n, f) {
      LookupsDetermine(result, global);
    }
  }

  /** A locked field with default "Senda" that stores "Acme": the global path answers
      the default and the workspace path the stored value. */
  lemma {:induction false} GlobalDropsLockedValue(result: Injectors, global: Injectors)
    requires MergedFrom(
      map["brand" := map["name" := Val("Acme")]], map["brand" := map["name" := FieldRule(Val("Senda"), false)]],
      map[], map[], false, result)
    requires MergedFrom(
      map["brand" := map["name" := Val("Acme")]], map["brand" := map["name" := FieldRule(Val("Senda"), false)]],
      map[], map[], true, global)
    ensures Lookup(result, "brand", "name") == Some(Val("Acme")) && Lookup(global, "brand", "name") == Some(Val("Senda"))
  {
    var stored, rules := map["brand" := map["name" := Val("Acme")]], map["brand" := map["name" := FieldRule(Val("Senda"), false)]];
    assert Lookup(rules, "brand", "name") == Some(FieldRule(Val("Senda"), false));
    assert Lookup(stored, "brand", "name") == Some(Val("Acme"));
    assert Lookup<Value>(map[], "brand", "name") == None;
  }

  lemma {:induction false} Absorbed<V>(a: map<string, V>, b: map<string, V>, c: map<string, V>)
    requires b.Keys <= c.Keys
    ensures a + b + c == a + c
  {
  }

  class InjectorMerger {
    const codeInjectors: seq<CodeInjectors.Injector>
    const parse: string -> Value

    constructor (codeInjectors: seq<CodeInjectors.Injector>, parse: string -> Value)
      ensures this.codeInjectors == codeInjectors && this.parse == parse
    {
      this.codeInjectors, this.parse := codeInjectors, parse;
    }

    ghost function Registry(): CodeInjectors.Registry {
      CodeInjectors.RegistryOf(codeInjectors, _ => true)
    }

    /** The i-th configured injector is the last one of its code. */
    ghost predicate IsLastOf(code: string, i: int) {
      && 0 <= i < |codeInjectors| && codeInjectors[i].code == code
      && forall j | i < j < |codeInjectors| :: codeInjectors[j].code != code
    }

    /** Every configured code injector takes part, the last one of each code, and nothing else. */
    lemma {:induction false} EveryInjectorTakesPart(i: int)
      requires 0 <= i < |codeInjectors|
      ensures codeInjectors[i].code in Registry()
      ensures IsLastOf(codeInjectors[i].code, i) ==> Registry()[codeInjectors[i].code] == codeInjectors[i]
    {
      CodeInjectors.RegistryKeepsLast(codeInjectors, _ => true, codeInjectors[i].code);
    }

    lemma {:induction false} NothingElseTakesPart(code: string)
      requires code in Registry()
      ensures exists i :: IsLastOf(code, i)
    {
      CodeInjectors.RegistryKeepsLast(codeInjectors, _ => true, code);
      var i :| 0 <= i < |codeInjectors| && codeInjectors[i].code == code && Registry()[code] == codeInjectors[i]
        && forall j | i < j < |codeInjectors| && codeInjectors[j].code == code :: false;
      assert IsLastOf(code, i);
    }

    /** Code injectors and merging, once the stored values are known. */
    method MergeRuntime(defaults: Injectors, rules: Rules, injCtx: InjectorContext, global: bool)
      returns (r: Result<Injectors, string>, order: seq<string>)
      requires SameShape(defaults, rules)
      modifies injCtx`resolved
      ensures Elements(order) == Registry().Keys
      ensures var code := CodeInjectors.Resolve(Registry(), old(injCtx.resolved), order);
        if code.error.Some? then r == Err(code.error.value)
        else
          && r.Ok?
          && MergedFrom(defaults, rules, injCtx.requestInjectors, code.resolved, global, r.value)
          && injCtx.resolved == old(injCtx.resolved) + r.value
    {
      var codeResult: Result<Injectors, string>;
      codeResult, order := CodeInjectors.ResolveCodeInjectors(codeInjectors, _ => true, injCtx);
      CodeInjectors.RunsExactlyOnce(Registry(), old(injCtx.resolved), order);
      if codeResult.Err? {
        return Err(codeResult.error), order;
      }
      var request := injCtx.RequestInjectors();
      var result := Merge(defaults, rules, request, codeResult.value, global);
      Absorbed(old(injCtx.resolved), codeResult.value, result);
      injCtx.MergeDBInjectors(result);
      return Ok(result), order;
    }

    /** ResolveWithContext, and with `global` ResolveGlobalWithContext. `catalog` is
        the outcome of the store queries, `init` that of the init callback, if there
        is one; `order` is the order in which code injectors were ranged over. */
    method ResolveWithContext(
        catalog: Result<Catalog, string>, scopes: seq<Scope>, init: Option<Result<Value, string>>,
        injCtx: InjectorContext, global: bool)
      returns (r: Result<Injectors, string>, ghost defaults: Injectors, ghost rules: Rules, order: seq<string>)
      modifies injCtx
      ensures injCtx.requestInjectors == old(injCtx.requestInjectors)
      ensures catalog.Err? ==> r == Err(catalog.error)
      ensures catalog.Ok? ==> ResolvedFrom(catalog.value, scopes, parse, defaults, rules)
      ensures catalog.Ok? && init.Some? && init.value.Err? ==> r == Err(init.value.error)
      ensures catalog.Ok? && (init.Some? ==> init.value.Ok?) ==>
        && Elements(order) == Registry().Keys
        && var code := CodeInjectors.Resolve(Registry(), old(injCtx.resolved) + defaults, order);
           if code.error.Some? then r == Err(code.error.value)
           else
             && r.Ok?
             && MergedFrom(defaults, rules, injCtx.requestInjectors, code.resolved, global, r.value)
             && injCtx.resolved == old(injCtx.resolved) + r.value
    {
      defaults, rules, order := map[], map[], [];
      if catalog.Err? {
        return Err(catalog.error), defaults, rules, order;
      }
      var base, fieldRules := ResolveDBForScopes(catalog.value, scopes, parse);
      defaults, rules := base, fieldRules;
      injCtx.MergeDBInjectors(base);
      if init.Some? {
        if init.value.Err? {
          return Err(init.value.error), defaults, rules, order;
        }
        injCtx.SetInitData(init.value.value);
      }
      r, order := MergeRuntime(base, fieldRules, injCtx, global);
      if r.Ok? {
        Absorbed(old(injCtx.resolved), base, r.value);
      }
    }
  }
}
