/** The mutable context shared by code injectors: internal/port/code_injector.go. */
module InjectorContexts {
  /** Go's `any`: a nil interface, or some value named by its text. */
  datatype Value = Nil | Val(text: string)

  type Fields = map<string, Value>

  /** injector name -> field name -> value. */
  type Injectors = map<string, Fields>

  /** A fresh copy of a Go map, filled in whatever order the map is ranged over. */
  method CopyMap<V>(m: map<string, V>) returns (cp: map<string, V>)
    ensures cp == m
  {
    cp := map[];
    var rest := m.Keys;
    while rest != {}
      invariant rest <= m.Keys
      invariant cp == map k | k in m && k !in rest :: m[k]
    {
      var k :| k in rest;
      cp := cp[k := m[k]];
      rest := rest - {k};
    }
  }

  method CopyInjectors(m: Injectors) returns (cp: Injectors)
    ensures cp == m
  {
    cp := map[];
    var rest := m.Keys;
    while rest != {}
      invariant rest <= m.Keys
      invariant cp == map k | k in m && k !in rest :: m[k]
    {
      var k :| k in rest;
      var fields := CopyMap(m[k]);
      cp := cp[k := fields];
      rest := rest - {k};
    }
  }

  class InjectorContext {
    var requestInjectors: Injectors
    var initData: Value
    var resolved: Injectors

    constructor ()
      ensures requestInjectors == map[] && initData == Nil && resolved == map[]
    {
      requestInjectors, initData, resolved := map[], Nil, map[];
    }

    method SetInitData(data: Value)
      modifies this`initData
      ensures initData == data
    {
      initData := data;
    }

    method SetResolved(code: string, fields: Fields)
      modifies this`resolved
      ensures resolved == old(resolved)[code := fields]
    {
      resolved := resolved[code := fields];
    }

    method SetRequestInjectors(injectors: Injectors)
      modifies this`requestInjectors
      ensures requestInjectors == injectors
    {
      requestInjectors := CopyInjectors(injectors);
    }

    method RequestInjectors() returns (cp: Injectors)
      ensures cp == requestInjectors
    {
      cp := CopyInjectors(requestInjectors);
    }

    /** Later values replace earlier ones name by name, never field by field. */
    method MergeDBInjectors(dbValues: Injectors)
      modifies this`resolved
      ensures resolved == old(resolved) + dbValues
    {
      var rest := dbValues.Keys;
      while rest != {}
        invariant rest <= dbValues.Keys
        invariant resolved == old(resolved) + map k | k in dbValues && k !in rest :: dbValues[k]
      {
        var k :| k in rest;
        resolved := resolved[k := dbValues[k]];
        rest := rest - {k};
      }
    }

    method AllResolved() returns (cp: Injectors)
      ensures cp == resolved
    {
      cp := CopyMap(resolved);
    }
  }
}
