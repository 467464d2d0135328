/** Code injectors in dependency order: resolveCodeInjectors of
    internal/resolution/injector_merger.go.

    `Visit` and `VisitAll` are the depth-first search as a function of its whole
    state; `Resolver.ResolveOne` is the closure of the source, which updates that
    state in place. `Meaning` is the recursive meaning of an acyclic graph. */
module CodeInjectors {
  import opened Common
  import opened InjectorContexts

  datatype Outcome = Resolved(fields: Fields) | Failed(error: string)

  /** `resolve` is the callback as a function of the context entries it can read;
      the request data is fixed during one resolution. */
  datatype Injector = Injector(code: string, deps: seq<string>, critical: bool, resolve: Injectors -> Outcome)

  type Registry = map<string, Injector>

  /** Every name the search can meet. */
  function Names(reg: Registry): set<string> {
    reg.Keys + set c, d | c in reg && d in reg[c].deps :: d
  }

  // ------------------------------------------------------------------ search

  /** `attempts` is history: the injectors whose callback ran, in order. */
  datatype Search = Search(
    visited: set<string>,
    resolved: Injectors,
    context: Injectors,
    attempts: seq<string>,
    error: Option<string>)

  function Attempt(code: string, inj: Injector, st: Search): Search {
    var st' := st.(attempts := st.attempts + [code]);
    match inj.resolve(st.context)
    case Failed(e) => if inj.critical then st'.(error := Some(e)) else st'
    case Resolved(fields) => st'.(resolved := st.resolved[code := fields], context := st.context[code := fields])
  }

  function Visit(reg: Registry, code: string, st: Search): (r: Search)
    requires code in Names(reg)
    ensures st.visited <= r.visited
    ensures r.visited <= st.visited + Names(reg)
    decreases |Names(reg) - st.visited|, 0
  {
    if code in st.visited then st
    else
      var entered := st.(visited := st.visited + {code});
      if code !in reg then entered
      else
        assert Names(reg) - entered.visited < Names(reg) - st.visited by {
          assert code in Names(reg) - st.visited;
        }
        SmallerSet(Names(reg) - entered.visited, Names(reg) - st.visited);
        var below := VisitAll(reg, reg[code].deps, entered);
        if below.error.Some? then below else Attempt(code, reg[code], below)
  }

  function VisitAll(reg: Registry, codes: seq<string>, st: Search): (r: Search)
    requires Elements(codes) <= Names(reg)
    ensures st.visited <= r.visited
    ensures r.visited <= st.visited + Names(reg)
    decreases |Names(reg) - st.visited|, 1, |codes|
  {
    if codes == [] || st.error.Some? then st
    else
      assert codes[0] in Elements(codes);
      var first := Visit(reg, codes[0], st);
      SubsetIsNoLarger(Names(reg) - first.visited, Names(reg) - st.visited);
      VisitAll(reg, codes[1..], first)
  }

  lemma {:induction false} SubsetIsNoLarger<T>(a: set<T>, b: set<T>)
    requires a <= b
    ensures |a| <= |b|
  {
    assert b == a + (b - a);
  }

  lemma {:induction false} SmallerSet<T>(a: set<T>, b: set<T>)
    requires a < b
    ensures |a| < |b|
  {
    assert b == a + (b - a);
    assert b - a != {};
  }

  function Start(base: Injectors): Search {
    Search({}, map[], base, [], None)
  }

  /** One resolution, ranging over the registry in the given order. */
  function Resolve(reg: Registry, base: Injectors, order: seq<string>): Search
    requires Elements(order) == reg.Keys
  {
    VisitAll(reg, order, Start(base))
  }

  // -------------------------------------------------- any graph: runs exactly once

  ghost predicate Tidy(reg: Registry, st: Search) {
    NoDuplicates(st.attempts) && Elements(st.attempts) <= st.visited * reg.Keys
  }

  /** The search stops because the last callback to run was critical and failed. */
  ghost predicate Aborted(reg: Registry, st: Search) {
    && |st.attempts| > 0
    && var last := st.attempts[|st.attempts| - 1];
       last in reg && reg[last].critical && st.error.Some? && reg[last].resolve(st.context) == Failed(st.error.value)
  }

  /** From `st` to `r`, exactly the newly visited registered codes were run. */
  ghost predicate RanNewlyVisited(reg: Registry, st: Search, r: Search) {
    && Tidy(reg, r)
    && (r.error.None? ==> Elements(r.attempts) == Elements(st.attempts) + (r.visited - st.visited) * reg.Keys)
    && (r.error.Some? ==> Aborted(reg, r))
  }

  lemma {:induction false} AttemptRuns(reg: Registry, code: string, st: Search)
    requires Tidy(reg, st) && st.error.None? && code in reg && code in st.visited && code !in st.attempts
    ensures var r := Attempt(code, reg[code], st);
      && Tidy(reg, r) && r.visited == st.visited && r.attempts == st.attempts + [code]
      && (r.error.Some? ==> Aborted(reg, r))
  {
    ElementsOfAppend(st.attempts, [code]);
  }

  lemma {:induction false} VisitRuns(reg: Registry, code: string, st: Search)
    requires Tidy(reg, st) && st.error.None? && code in Names(reg)
    ensures RanNewlyVisited(reg, st, Visit(reg, code, st))
    ensures Visit(reg, code, st).error.None? ==> code in Visit(reg, code, st).visited
    decreases |Names(reg) - st.visited|, 0
  {
    if code !in st.visited && code in reg {
      var entered := st.(visited := st.visited + {code});
      SmallerSet(Names(reg) - entered.visited, Names(reg) - st.visited);
      VisitAllRuns(reg, reg[code].deps, entered);
      var below := VisitAll(reg, reg[code].deps, entered);
      if below.error.None? {
        assert code !in Elements(below.attempts);
        AttemptRuns(reg, code, below);
        ElementsOfAppend(below.attempts, [code]);
      }
    }
  }

  lemma {:induction false} VisitAllRuns(reg: Registry, codes: seq<string>, st: Search)
    requires Tidy(reg, st) && st.error.None? && Elements(codes) <= Names(reg)
    ensures RanNewlyVisited(reg, st, VisitAll(reg, codes, st))
    ensures VisitAll(reg, codes, st).error.None? ==> Elements(codes) <= VisitAll(reg, codes, st).visited
    decreases |Names(reg) - st.visited|, 1, |codes|
  {
    if codes != [] {
      assert codes[0] in Elements(codes);
      VisitRuns(reg, codes[0], st);
      var first := Visit(reg, codes[0], st);
      SubsetIsNoLarger(Names(reg) - first.visited, Names(reg) - st.visited);
      if first.error.None? {
        VisitAllRuns(reg, codes[1..], first);
        assert codes == [codes[0]] + codes[1..];
        ElementsOfAppend([codes[0]], codes[1..]);
      }
    }
  }

  lemma {:induction false} AttemptWritesContext(reg: Registry, base: Injectors, code: string, st: Search)
    requires code in reg && st.context == base + st.resolved
    ensures Attempt(code, reg[code], st).context == base + Attempt(code, reg[code], st).resolved
  {
  }

  /** The context only ever receives what the search resolved. */
  lemma {:induction false} VisitWritesContext(reg: Registry, base: Injectors, code: string, st: Search)
    requires code in Names(reg) && st.context == base + st.resolved
    ensures Visit(reg, code, st).context == base + Visit(reg, code, st).resolved
    decreases |Names(reg) - st.visited|, 0
  {
    if code !in st.visited && code in reg {
      var entered := st.(visited := st.visited + {code});
      SmallerSet(Names(reg) - entered.visited, Names(reg) - st.visited);
      VisitAllWritesContext(reg, base, reg[code].deps, entered);
      AttemptWritesContext(reg, base, code, VisitAll(reg, reg[code].deps, entered));
    }
  }

  lemma {:induction false} VisitAllWritesContext(reg: Registry, base: Injectors, codes: seq<string>, st: Search)
    requires Elements(codes) <= Names(reg) && st.context == base + st.resolved
    ensures VisitAll(reg, codes, st).context == base + VisitAll(reg, codes, st).resolved
    decreases |Names(reg) - st.visited|, 1, |codes|
  {
    if codes != [] && st.error.None? {
      assert codes[0] in Elements(codes);
      VisitWritesContext(reg, base, codes[0], st);
      var first := Visit(reg, codes[0], st);
      SubsetIsNoLarger(Names(reg) - first.visited, Names(reg) - st.visited);
      VisitAllWritesContext(reg, base, codes[1..], first);
    }
  }

  /** For any graph, cyclic or naming unknown codes: unless a critical injector
      fails, every registered injector runs exactly once, and only resolved values
      reach the context; and if the resolution
      does fail, the last one to run is critical and failed. */
  lemma {:induction false} RunsExactlyOnce(reg: Registry, base: Injectors, order: seq<string>)
    requires Elements(order) == reg.Keys
    ensures var r := Resolve(reg, base, order);
      && NoDuplicates(r.attempts)
      && Elements(r.attempts) <= reg.Keys
      && r.context == base + r.resolved
      && (r.error.None? ==> Elements(r.attempts) == reg.Keys)
      && (r.error.Some? ==> Aborted(reg, r))
  {
    VisitAllRuns(reg, order, Start(base));
    VisitAllWritesContext(reg, base, order, Start(base));
  }

  // ------------------------------------------------ acyclic graphs: dependencies first

  /** The declared dependencies among registered codes go down in rank. */
  ghost predicate Ranked(reg: Registry, rank: string -> nat) {
    forall c, d | c in reg && d in reg[c].deps && d in reg :: rank(d) < rank(c)
  }

  ghost predicate DepsFirst(reg: Registry, attempts: seq<string>) {
    forall p, d | 0 <= p < |attempts| && attempts[p] in reg && d in reg[attempts[p]].deps && d in reg ::
      d in attempts[..p]
  }

  /** Registered codes whose search has begun and whose callback has not run. */
  function OnStack(reg: Registry, st: Search): set<string> {
    st.visited * reg.Keys - Elements(st.attempts)
  }

  ghost predicate BelowStack(reg: Registry, rank: string -> nat, code: string, st: Search) {
    code in reg ==> forall c | c in OnStack(reg, st) :: rank(code) < rank(c)
  }

  /** A finished visit leaves the stack as it found it, so what was below stays below. */
  lemma {:induction false} VisitRestoresStack(reg: Registry, rank: string -> nat, codes: seq<string>, st: Search, r: Search)
    requires RanNewlyVisited(reg, st, r) && r.error.None?
    requires forall d | d in codes :: BelowStack(reg, rank, d, st)
    ensures forall d | d in codes :: BelowStack(reg, rank, d, r)
  {
    assert OnStack(reg, r) <= OnStack(reg, st);
    forall d | d in codes ensures BelowStack(reg, rank, d, r) {
      assert BelowStack(reg, rank, d, st);
    }
  }

  /** Entering a code puts it on the stack, above all its dependencies. */
  lemma {:induction false} DepsAreBelow(reg: Registry, rank: string -> nat, code: string, st: Search)
    requires Ranked(reg, rank) && code in reg && BelowStack(reg, rank, code, st)
    ensures forall d | d in reg[code].deps :: BelowStack(reg, rank, d, st.(visited := st.visited + {code}))
  {
    var entered := st.(visited := st.visited + {code});
    assert OnStack(reg, entered) <= OnStack(reg, st) + {code};
  }

  /** When a code's own turn comes, its registered dependencies have all run. */
  lemma {:induction false} DepsHaveRun(reg: Registry, code: string, st: Search, rank: string -> nat)
    requires Ranked(reg, rank) && Tidy(reg, st) && st.error.None?
    requires code in reg && code !in st.visited && BelowStack(reg, rank, code, st)
    ensures var below := VisitAll(reg, reg[code].deps, st.(visited := st.visited + {code}));
      below.error.None? ==> forall d | d in reg[code].deps && d in reg :: d in below.attempts
  {
    var entered := st.(visited := st.visited + {code});
    VisitAllRuns(reg, reg[code].deps, entered);
    var below := VisitAll(reg, reg[code].deps, entered);
    if below.error.None? {
      forall d | d in reg[code].deps && d in reg ensures d in below.attempts {
        assert d in Elements(reg[code].deps) && d in below.visited;
        assert d !in OnStack(reg, entered);
      }
    }
  }

  lemma {:induction false} VisitOrders(reg: Registry, code: string, st: Search, rank: string -> nat)
    requires Ranked(reg, rank) && Tidy(reg, st) && st.error.None? && code in Names(reg)
    requires BelowStack(reg, rank, code, st) && DepsFirst(reg, st.attempts)
    ensures DepsFirst(reg, Visit(reg, code, st).attempts)
    decreases |Names(reg) - st.visited|, 0
  {
    if code !in st.visited && code in reg {
      var entered := st.(visited := st.visited + {code});
      SmallerSet(Names(reg) - entered.visited, Names(reg) - st.visited);
      DepsAreBelow(reg, rank, code, st);
      VisitAllOrders(reg, reg[code].deps, entered, rank);
      DepsHaveRun(reg, code, st, rank);
      var below := VisitAll(reg, reg[code].deps, entered);
      if below.error.None? {
        var after := below.attempts + [code];
        assert after == Attempt(code, reg[code], below).attempts;
        forall p, d | 0 <= p < |after| && after[p] in reg && d in reg[after[p]].deps && d in reg
          ensures d in after[..p]
        {
          assert after[..p] == below.attempts[..p];
          if p == |below.attempts| {
            assert below.attempts[..p] == below.attempts;
          }
        }
      }
    }
  }

  lemma {:induction false} VisitAllOrders(reg: Registry, codes: seq<string>, st: Search, rank: string -> nat)
    requires Ranked(reg, rank) && Tidy(reg, st) && st.error.None? && Elements(codes) <= Names(reg)
    requires (forall d | d in codes :: BelowStack(reg, rank, d, st)) && DepsFirst(reg, st.attempts)
    ensures DepsFirst(reg, VisitAll(reg, codes, st).attempts)
    decreases |Names(reg) - st.visited|, 1, |codes|
  {
    if codes != [] {
      assert codes[0] in Elements(codes);
      VisitOrders(reg, codes[0], st, rank);
      VisitRuns(reg, codes[0], st);
      var first := Visit(reg, codes[0], st);
      SubsetIsNoLarger(Names(reg) - first.visited, Names(reg) - st.visited);
      if first.error.None? {
        VisitRestoresStack(reg, rank, codes, st, first);
        VisitAllOrders(reg, codes[1..], first, rank);
      }
    }
  }

  /** In an acyclic graph each injector runs only after every registered
      dependency was attempted, whatever the map iteration order. */
  lemma {:induction false} DependenciesRunFirst(reg: Registry, base: Injectors, order: seq<string>, rank: string -> nat)
    requires Elements(order) == reg.Keys && Ranked(reg, rank)
    ensures DepsFirst(reg, Resolve(reg, base, order).attempts)
  {
    VisitAllOrders(reg, order, Start(base), rank);
  }

  // -------------------------------------------------- acyclic graphs: the meaning

  /** The callback looks at no context entry outside its declared dependencies. */
  ghost predicate ReadsOnlyDeps(inj: Injector) {
    forall a, b | SameOn(a, b, inj.deps) :: inj.resolve(a) == inj.resolve(b)
  }

  ghost predicate SameOn(a: Injectors, b: Injectors, names: seq<string>) {
    forall d | d in names :: (d in a <==> d in b) && (d in a ==> a[d] == b[d])
  }

  ghost predicate WellBehaved(reg: Registry, rank: string -> nat) {
    Ranked(reg, rank) && forall c | c in reg :: ReadsOnlyDeps(reg[c])
  }

  /** What an injector computes: its callback, applied to the stored defaults
      overridden by what its dependencies compute. */
  ghost function Meaning(reg: Registry, base: Injectors, rank: string -> nat, code: string): Outcome
    requires Ranked(reg, rank) && code in reg
    decreases rank(code)
  {
    reg[code].resolve(base + Inputs(reg, base, rank, code))
  }

  ghost function Inputs(reg: Registry, base: Injectors, rank: string -> nat, code: string): Injectors
    requires Ranked(reg, rank) && code in reg
    decreases rank(code), 0
  {
    map d | d in reg[code].deps && d in reg && Meaning(reg, base, rank, d).Resolved?
      :: Meaning(reg, base, rank, d).fields
  }

  /** The values of those `codes` that compute one. */
  ghost function Values(reg: Registry, base: Injectors, rank: string -> nat, codes: set<string>): Injectors
    requires Ranked(reg, rank)
  {
    map c | c in codes && c in reg && Meaning(reg, base, rank, c).Resolved? :: Meaning(reg, base, rank, c).fields
  }

  ghost predicate CriticalFailure(reg: Registry, base: Injectors, rank: string -> nat)
    requires Ranked(reg, rank)
  {
    exists c :: c in reg && reg[c].critical && Meaning(reg, base, rank, c).Failed?
  }

  /** Every callback run so far computed its meaning, and none was fatal. */
  ghost predicate Faithful(reg: Registry, base: Injectors, rank: string -> nat, st: Search)
    requires Ranked(reg, rank)
  {
    && st.resolved == Values(reg, base, rank, Elements(st.attempts))
    && st.context == base + st.resolved
    && (forall c | c in st.attempts && c in reg && reg[c].critical :: Meaning(reg, base, rank, c).Resolved?)
  }

  lemma {:induction false} DepsAreSeen(reg: Registry, base: Injectors, rank: string -> nat, code: string, st: Search)
    requires Ranked(reg, rank) && Faithful(reg, base, rank, st)
    requires code in reg && forall d | d in reg[code].deps && d in reg :: d in st.attempts
    ensures SameOn(st.context, base + Inputs(reg, base, rank, code), reg[code].deps)
  {
    var inputs := Inputs(reg, base, rank, code);
    forall d | d in reg[code].deps
      ensures (d in st.context <==> d in base + inputs) && (d in st.context ==> st.context[d] == (base + inputs)[d])
    {
      assert d in inputs <==> d in st.resolved;
    }
  }

  lemma {:induction false} CallbackMeans(reg: Registry, base: Injectors, rank: string -> nat, code: string, st: Search)
    requires WellBehaved(reg, rank) && Faithful(reg, base, rank, st)
    requires code in reg && forall d | d in reg[code].deps && d in reg :: d in st.attempts
    ensures reg[code].resolve(st.context) == Meaning(reg, base, rank, code)
  {
    DepsAreSeen(reg, base, rank, code, st);
    assert ReadsOnlyDeps(reg[code]);
  }

  lemma {:induction false} AttemptMeans(reg: Registry, base: Injectors, rank: string -> nat, code: string, st: Search)
    requires WellBehaved(reg, rank) && st.error.None? && Faithful(reg, base, rank, st)
    requires code in reg && forall d | d in reg[code].deps && d in reg :: d in st.attempts
    ensures var r := Attempt(code, reg[code], st);
      if r.error.None? then Faithful(reg, base, rank, r) else CriticalFailure(reg, base, rank)
  {
    CallbackMeans(reg, base, rank, code, st);
    if Meaning(reg, base, rank, code).Resolved? || !reg[code].critical {
      AttemptStaysFaithful(reg, base, rank, code, st);
    }
  }

  lemma {:induction false} AttemptStaysFaithful(reg: Registry, base: Injectors, rank: string -> nat, code: string, st: Search)
    requires Ranked(reg, rank) && st.error.None? && Faithful(reg, base, rank, st) && code in reg
    requires reg[code].resolve(st.context) == Meaning(reg, base, rank, code)
    requires Meaning(reg, base, rank, code).Resolved? || !reg[code].critical
    ensures Faithful(reg, base, rank, Attempt(code, reg[code], st))
  {
    ValuesGrow(reg, base, rank, Elements(st.attempts), code);
    ElementsOfAppend(st.attempts, [code]);
    assert Elements([code]) == {code};
    AttemptWritesContext(reg, base, code, st);
  }

  lemma {:induction false} ValuesGrow(reg: Registry, base: Injectors, rank: string -> nat, codes: set<string>, code: string)
    requires Ranked(reg, rank) && code in reg
    ensures var m := Meaning(reg, base, rank, code);
      Values(reg, base, rank, codes + {code})
      == if m.Resolved? then Values(reg, base, rank, codes)[code := m.fields] else Values(reg, base, rank, codes)
  {
  }

  lemma {:induction false} VisitMeans(reg: Registry, base: Injectors, rank: string -> nat, code: string, st: Search)
    requires WellBehaved(reg, rank) && Tidy(reg, st) && st.error.None? && code in Names(reg)
    requires BelowStack(reg, rank, code, st) && Faithful(reg, base, rank, st)
    ensures var r := Visit(reg, code, st);
      if r.error.None? then Faithful(reg, base, rank, r) else CriticalFailure(reg, base, rank)
    decreases |Names(reg) - st.visited|, 0
  {
    if code !in st.visited && code in reg {
      var entered := st.(visited := st.visited + {code});
      SmallerSet(Names(reg) - entered.visited, Names(reg) - st.visited);
      DepsAreBelow(reg, rank, code, st);
      VisitAllMeans(reg, base, rank, reg[code].deps, entered);
      DepsHaveRun(reg, code, st, rank);
      var below := VisitAll(reg, reg[code].deps, entered);
      if below.error.None? {
        AttemptMeans(reg, base, rank, code, below);
      }
    }
  }

  lemma {:induction false} VisitAllMeans(
      reg: Registry, base: Injectors, rank: string -> nat, codes: seq<string>, st: Search)
    requires WellBehaved(reg, rank) && Tidy(reg, st) && st.error.None? && Elements(codes) <= Names(reg)
    requires (forall d | d in codes :: BelowStack(reg, rank, d, st)) && Faithful(reg, base, rank, st)
    ensures var r := VisitAll(reg, codes, st);
      if r.error.None? then Faithful(reg, base, rank, r) else CriticalFailure(reg, base, rank)
    decreases |Names(reg) - st.visited|, 1, |codes|
  {
    if codes != [] {
      assert codes[0] in Elements(codes);
      VisitMeans(reg, base, rank, codes[0], st);
      VisitRuns(reg, codes[0], st);
      var first := Visit(reg, codes[0], st);
      SubsetIsNoLarger(Names(reg) - first.visited, Names(reg) - st.visited);
      if first.error.None? {
        VisitRestoresStack(reg, rank, codes, st, first);
        VisitAllMeans(reg, base, rank, codes[1..], first);
      }
    }
  }

  /** For an acyclic graph of well-behaved callbacks, the search computes the
      meaning of the graph: it fails exactly when some critical injector fails
      under that meaning; otherwise it returns the value of every injector that
      has one, and the context keeps its stored entry for every one that failed. */
  lemma {:induction false} ResolveComputesMeaning(reg: Registry, base: Injectors, order: seq<string>, rank: string -> nat)
    requires Elements(order) == reg.Keys && WellBehaved(reg, rank)
    ensures var r := Resolve(reg, base, order);
      && (r.error.Some? <==> CriticalFailure(reg, base, rank))
      && (r.error.None? ==>
            && r.resolved == Values(reg, base, rank, reg.Keys)
            && r.context == base + Values(reg, base, rank, reg.Keys))
  {
    RunsExactlyOnce(reg, base, order);
    VisitAllMeans(reg, base, rank, order, Start(base));
  }

  /** So the order in which Go ranges over the registry is irrelevant. */
  lemma {:induction false} OrderIsIrrelevant(reg: Registry, base: Injectors, a: seq<string>, b: seq<string>, rank: string -> nat)
    requires Elements(a) == Elements(b) == reg.Keys && WellBehaved(reg, rank)
    ensures Resolve(reg, base, a).error.Some? <==> Resolve(reg, base, b).error.Some?
    ensures Resolve(reg, base, a).error.None? ==>
      && Resolve(reg, base, a).resolved == Resolve(reg, base, b).resolved
      && Resolve(reg, base, a).context == Resolve(reg, base, b).context
  {
    ResolveComputesMeaning(reg, base, a, rank);
    ResolveComputesMeaning(reg, base, b, rank);
  }

  // -------------------------------------------------------------- the code itself

  /** `byCode`: of the injectors the filter admits, the last one of each code. */
  function RegistryOf(injectors: seq<Injector>, filter: Injector -> bool): Registry {
    if injectors == [] then map[]
    else
      var rest, last := injectors[..|injectors| - 1], injectors[|injectors| - 1];
      if filter(last) then RegistryOf(rest, filter)[last.code := last] else RegistryOf(rest, filter)
  }

  /** The registered injector of a code is its last admitted one; other codes have none. */
  lemma {:induction false} RegistryKeepsLast(injectors: seq<Injector>, filter: Injector -> bool, code: string)
    ensures var reg := RegistryOf(injectors, filter);
      if code in reg then
        exists i :: 0 <= i < |injectors| && injectors[i].code == code && filter(injectors[i]) && reg[code] == injectors[i]
          && forall j | i < j < |injectors| && injectors[j].code == code :: !filter(injectors[j])
      else forall j | 0 <= j < |injectors| && injectors[j].code == code :: !filter(injectors[j])
  {
    if injectors != [] {
      var n := |injectors| - 1;
      RegistryKeepsLast(injectors[..n], filter, code);
      var reg, last := RegistryOf(injectors, filter), injectors[n];
      if code in reg {
        var i := if filter(last) && last.code == code then n else
          var i :| 0 <= i < n && injectors[..n][i].code == code && filter(injectors[..n][i])
            && RegistryOf(injectors[..n], filter)[code] == injectors[..n][i]
            && forall j | i < j < n && injectors[..n][j].code == code :: !filter(injectors[..n][j]);
          i;
        assert injectors[i].code == code && filter(injectors[i]) && reg[code] == injectors[i];
        forall j | i < j < |injectors| && injectors[j].code == code ensures !filter(injectors[j]) {
          assert j < n ==> injectors[..n][j] == injectors[j];
        }
      } else {
        forall j | 0 <= j < |injectors| && injectors[j].code == code ensures !filter(injectors[j]) {
          assert j < n ==> injectors[..n][j] == injectors[j];
        }
      }
    }
  }

  method BuildRegistry(injectors: seq<Injector>, filter: Injector -> bool) returns (byCode: Registry)
    ensures byCode == RegistryOf(injectors, filter)
  {
    byCode := map[];
    for i := 0 to |injectors|
      invariant byCode == RegistryOf(injectors[..i], filter)
    {
      assert injectors[..i + 1][..i] == injectors[..i];
      if filter(injectors[i]) {
        byCode := byCode[injectors[i].code := injectors[i]];
      }
    }
    assert injectors[..|injectors|] == injectors;
  }

  class Resolver {
    const byCode: Registry
    const injCtx: InjectorContext
    var visited: set<string>
    var resolved: Injectors
    ghost var attempts: seq<string>

    constructor (byCode: Registry, injCtx: InjectorContext)
      ensures this.byCode == byCode && this.injCtx == injCtx
      ensures State(None) == Start(injCtx.resolved)
    {
      this.byCode, this.injCtx, visited, resolved, attempts := byCode, injCtx, {}, map[], [];
    }

    ghost function State(error: Option<string>): Search
      reads this, injCtx
    {
      Search(visited, resolved, injCtx.resolved, attempts, error)
    }

    /** The recursive closure `resolveOne`. */
    method ResolveOne(code: string) returns (err: Option<string>)
      requires code in Names(byCode)
      modifies this, injCtx`resolved
      ensures State(err) == Visit(byCode, code, old(State(None)))
      decreases |Names(byCode) - visited|
    {
      if code in visited {
        return None;
      }
      ghost var outside := Names(byCode) - visited;
      visited := visited + {code};
      if code !in byCode {
        return None;
      }
      SmallerSet(Names(byCode) - visited, outside);
      ghost var entered := State(None);
      var inj := byCode[code];
      for i := 0 to |inj.deps|
        invariant entered.visited <= visited
        invariant Elements(inj.deps[i..]) <= Names(byCode)
        invariant VisitAll(byCode, inj.deps, entered) == VisitAll(byCode, inj.deps[i..], State(None))
      {
        assert inj.deps[i..][0] == inj.deps[i] && inj.deps[i..][1..] == inj.deps[i + 1..];
        assert inj.deps[i] in Elements(inj.deps[i..]);
        SubsetIsNoLarger(Names(byCode) - visited, Names(byCode) - entered.visited);
        err := ResolveOne(inj.deps[i]);
        if err.Some? {
          return;
        }
      }
      attempts := attempts + [code];
      match inj.resolve(injCtx.resolved) {
        case Failed(e) => return if inj.critical then Some(e) else None;
        case Resolved(fields) =>
          resolved := resolved[code := fields];
          injCtx.SetResolved(code, fields);
          return None;
      }
    }
  }

  /** The order in which Go ranges over a map: any order at all. */
  method RangeOrder(keys: set<string>) returns (order: seq<string>)
    ensures Elements(order) == keys && NoDuplicates(order)
  {
    order := [];
    var rest := keys;
    while rest != {}
      invariant rest <= keys && Elements(order) == keys - rest && NoDuplicates(order)
    {
      var k :| k in rest;
      assert k !in Elements(order);
      ElementsOfAppend(order, [k]);
      order, rest := order + [k], rest - {k};
    }
  }

  /** resolveCodeInjectors, with the order in which it ranged over its registry. */
  method ResolveCodeInjectors(injectors: seq<Injector>, filter: Injector -> bool, injCtx: InjectorContext)
    returns (result: Result<Injectors, string>, order: seq<string>)
    modifies injCtx`resolved
    ensures Elements(order) == RegistryOf(injectors, filter).Keys
    ensures var r := Resolve(RegistryOf(injectors, filter), old(injCtx.resolved), order);
      && injCtx.resolved == r.context
      && result == if r.error.Some? then Err(r.error.value) else Ok(r.resolved)
  {
    var byCode := BuildRegistry(injectors, filter);
    order := RangeOrder(byCode.Keys);
    var resolver := new Resolver(byCode, injCtx);
    ghost var start := resolver.State(None);
    for i := 0 to |order|
      invariant resolver.byCode == byCode && resolver.injCtx == injCtx
      invariant Elements(order[i..]) <= Names(byCode)
      invariant VisitAll(byCode, order, start) == VisitAll(byCode, order[i..], resolver.State(None))
    {
      assert order[i..][0] == order[i] && order[i..][1..] == order[i + 1..];
      assert order[i] in Elements(order[i..]);
      var err := resolver.ResolveOne(order[i]);
      if err.Some? {
        return Err(err.value), order;
      }
    }
    return Ok(resolver.resolved), order;
  }
}
