/** The read-through cache of resolution chains and its invalidation:
    internal/resolution/chain.go and internal/resolution/cache_invalidator.go. */
module ChainCaching {
  import opened Common
  import opened Workspaces

  datatype Chain = Chain(workspace: Uuid, systemWorkspace: Uuid, tenant: Uuid, scopes: seq<Uuid>)

  /** The entries under "chain:<workspace id>". */
  type Chains = map<Uuid, Chain>

  /** GetSystemWorkspace. */
  function SystemOf(dir: Directory, tenant: Uuid, env: Environment): Option<Uuid> {
    var systems := Members(dir, tenant, env, true);
    if systems == {} then None else Some(MaxOf(systems))
  }

  /** The chain as the workspace store determines it: the workspace, then its
      tenant's system workspace in the same environment. */
  function FreshChain(dir: Directory, id: Uuid): Option<Chain> {
    if id !in dir then None
    else
      var ws := dir[id];
      if ws.isSystem then Some(Chain(id, id, ws.tenant, [id]))
      else
        match SystemOf(dir, ws.tenant, ws.env)
        case None => None
        case Some(sys) => Some(Chain(id, sys, ws.tenant, [id, sys]))
  }

  /** A system workspace's chain is itself alone; an ordinary one's goes on to the one
      system workspace of its tenant and environment, and does not exist without it. */
  lemma {:induction false} FreshChainIs(dir: Directory, id: Uuid, sys: Uuid)
    requires OneSystemEach(dir) && id in dir
    ensures dir[id].isSystem ==> FreshChain(dir, id) == Some(Chain(id, id, dir[id].tenant, [id]))
    ensures !dir[id].isSystem && sys in dir && dir[sys] == Workspace(dir[id].tenant, dir[id].env, true) ==>
      FreshChain(dir, id) == Some(Chain(id, sys, dir[id].tenant, [id, sys]))
    ensures !dir[id].isSystem && (forall x | x in dir :: dir[x] != Workspace(dir[id].tenant, dir[id].env, true)) ==>
      FreshChain(dir, id) == None
  {
    var systems := Members(dir, dir[id].tenant, dir[id].env, true);
    if sys in dir && dir[sys] == Workspace(dir[id].tenant, dir[id].env, true) {
      assert sys in systems && MaxOf(systems) in systems;
    }
  }

  /** Every cached chain of a live workspace is the one a fresh lookup would build. */
  ghost predicate Coherent(dir: Directory, chains: Chains) {
    forall id | id in chains && id in dir :: FreshChain(dir, id) == Some(chains[id])
  }

  // ------------------------------------------------------------------- every run

  datatype World = World(dir: Directory, chains: Chains)

  /** A change of an ordinary workspace is followed by InvalidateWorkspace, any
      other change within a tenant by InvalidateTenantWorkspaces, which removed the
      chains of `removed`; expiry is free. */
  datatype Action =
    | Resolve(id: Uuid)
    | Expire(id: Uuid)
    | ChangeWorkspace(id: Uuid, change: Option<Workspace>)
    | ChangeTenant(tenant: Uuid, dir: Directory, removed: set<Uuid>)

  /** The two directories differ within the tenant only. */
  ghost predicate Confined(before: Directory, after: Directory, tenant: Uuid) {
    forall id ::
      (id in before && before[id].tenant != tenant) || (id in after && after[id].tenant != tenant) ==>
        id in before && id in after && before[id] == after[id]
  }

  /** The change leaves what the chain of a workspace is made of as it was: whether
      it is a system workspace and, if not, which one its chain leads to. */
  predicate Unaffected(before: Directory, after: Directory, id: Uuid)
    requires id in after
  {
    && id in before && before[id].isSystem == after[id].isSystem
    && (after[id].isSystem || SystemOf(before, before[id].tenant, before[id].env) == SystemOf(after, after[id].tenant, after[id].env))
  }

  /** Every chain the invalidation left in place belongs to an unaffected workspace. */
  predicate KeptAreUnaffected(w: World, tenant: Uuid, after: Directory, removed: set<Uuid>) {
    forall id | id in w.chains && id !in removed && id in TenantMembers(after, tenant) :: Unaffected(w.dir, after, id)
  }

  ghost predicate Legal(w: World, a: Action) {
    match a
    case ChangeWorkspace(id, change) => (id in w.dir ==> !w.dir[id].isSystem) && (change.Some? ==> !change.value.isSystem)
    case ChangeTenant(tenant, after, removed) =>
      OneSystemEach(after) && Confined(w.dir, after, tenant) && KeptAreUnaffected(w, tenant, after, removed)
    case _ => true
  }

  function ChainsAfterResolve(dir: Directory, chains: Chains, id: Uuid): Chains {
    if id in chains || FreshChain(dir, id).None? then chains else chains[id := FreshChain(dir, id).value]
  }

  ghost function Next(w: World, a: Action): World {
    if !Legal(w, a) then w else
    match a
    case Resolve(id) => w.(chains := ChainsAfterResolve(w.dir, w.chains, id))
    case Expire(id) => w.(chains := w.chains - {id})
    case ChangeWorkspace(id, change) =>
      World(if change.Some? then w.dir[id := change.value] else w.dir - {id}, w.chains - {id})
    case ChangeTenant(_, after, removed) => World(after, w.chains - removed)
  }

  ghost function Run(w: World, actions: seq<Action>): World
    decreases |actions|
  {
    if actions == [] then w else Run(Next(w, actions[0]), actions[1..])
  }

  /** Chains of workspaces whose own record and system workspaces are unchanged are unchanged. */
  lemma {:induction false} UnchangedChain(before: Directory, after: Directory, id: Uuid)
    requires id in before && id in after && before[id] == after[id]
    requires forall env :: Members(before, before[id].tenant, env, true) == Members(after, before[id].tenant, env, true)
    ensures FreshChain(before, id) == FreshChain(after, id)
  {
  }

  /** A change of an ordinary workspace leaves the system workspaces alone. */
  lemma {:induction false} SystemsUnchanged(dir: Directory, id: Uuid, change: Option<Workspace>, tenant: Uuid, env: Environment)
    requires id in dir ==> !dir[id].isSystem
    requires change.Some? ==> !change.value.isSystem
    ensures Members(if change.Some? then dir[id := change.value] else dir - {id}, tenant, env, true)
      == Members(dir, tenant, env, true)
  {
  }

  lemma {:induction false} ChangeWorkspaceKeepsCoherent(w: World, id: Uuid, change: Option<Workspace>)
    requires Coherent(w.dir, w.chains) && OneSystemEach(w.dir) && Legal(w, ChangeWorkspace(id, change))
    ensures var w' := Next(w, ChangeWorkspace(id, change)); Coherent(w'.dir, w'.chains) && OneSystemEach(w'.dir)
  {
    var w' := Next(w, ChangeWorkspace(id, change));
    forall other | other in w'.chains && other in w'.dir ensures FreshChain(w'.dir, other) == Some(w'.chains[other]) {
      forall env ensures Members(w.dir, w.dir[other].tenant, env, true) == Members(w'.dir, w.dir[other].tenant, env, true) {
        SystemsUnchanged(w.dir, id, change, w.dir[other].tenant, env);
      }
      UnchangedChain(w.dir, w'.dir, other);
    }
  }

  lemma {:induction false} NextKeepsCoherent(w: World, a: Action)
    requires Coherent(w.dir, w.chains) && OneSystemEach(w.dir)
    ensures Coherent(Next(w, a).dir, Next(w, a).chains) && OneSystemEach(Next(w, a).dir)
  {
    if Legal(w, a) {
      match a
      case Resolve(_) =>
      case Expire(_) =>
      case ChangeWorkspace(id, change) => ChangeWorkspaceKeepsCoherent(w, id, change);
      case ChangeTenant(tenant, after, removed) => KeptUnaffectedIsCoherent(w, tenant, after, removed);
    }
  }

  /** In every run in which each change is followed by an invalidation that removes at
      least the chains it affects, a cached chain of a live workspace is never stale. */
  lemma {:induction false} CacheIsCoherent(w: World, actions: seq<Action>)
    requires Coherent(w.dir, w.chains) && OneSystemEach(w.dir)
    ensures Coherent(Run(w, actions).dir, Run(w, actions).chains) && OneSystemEach(Run(w, actions).dir)
    decreases |actions|
  {
    if actions != [] {
      NextKeepsCoherent(w, actions[0]);
      CacheIsCoherent(Next(w, actions[0]), actions[1..]);
    }
  }

  /** An unaffected workspace's chain is what it was, and an affected one's is not. */
  lemma {:induction false} UnaffectedIff(before: Directory, after: Directory, id: Uuid)
    requires id in before && id in after && before[id].tenant == after[id].tenant && FreshChain(before, id).Some?
    ensures FreshChain(before, id) == FreshChain(after, id) <==> Unaffected(before, after, id)
  {
  }

  lemma {:induction false} KeptUnaffectedIsCoherent(w: World, tenant: Uuid, after: Directory, removed: set<Uuid>)
    requires Coherent(w.dir, w.chains) && Confined(w.dir, after, tenant) && KeptAreUnaffected(w, tenant, after, removed)
    ensures Coherent(after, w.chains - removed)
  {
    ChangeElsewhere(w, tenant, after);
    forall id | id in w.chains - removed && id in after ensures FreshChain(after, id) == Some(w.chains[id]) {
      if after[id].tenant == tenant {
        assert Unaffected(w.dir, after, id);
        UnaffectedIff(w.dir, after, id);
      }
    }
  }

  /** Deletes can fail. After a change within a tenant that reuses no cached id, with
      whatever removed, the cache is coherent exactly when the change did not affect
      any workspace whose chain is still there. */
  lemma {:induction false} CoherentAfterDeletesIff(w: World, tenant: Uuid, after: Directory, removed: set<Uuid>)
    requires Coherent(w.dir, w.chains) && Confined(w.dir, after, tenant)
    requires forall id | id in w.chains && id in after :: id in w.dir
    ensures Coherent(after, w.chains - removed) <==> KeptAreUnaffected(w, tenant, after, removed)
  {
    if Coherent(after, w.chains - removed) {
      forall id | id in w.chains && id !in removed && id in TenantMembers(after, tenant)
        ensures Unaffected(w.dir, after, id)
      {
        assert id in w.chains - removed;
        UnaffectedIff(w.dir, after, id);
      }
    } else if KeptAreUnaffected(w, tenant, after, removed) {
      KeptUnaffectedIsCoherent(w, tenant, after, removed);
    }
  }

  /** So InvalidateTenantWorkspaces, when every page is listed, leaves the cache
      coherent exactly when no chain whose Delete failed was affected. */
  lemma {:induction false} FailedDeletesMatterIff(w: World, tenant: Uuid, after: Directory, undeletable: set<Uuid>)
    requires Coherent(w.dir, w.chains) && Confined(w.dir, after, tenant)
    requires forall id | id in w.chains && id in after :: id in w.dir
    ensures Coherent(after, w.chains - (TenantMembers(after, tenant) - undeletable)) <==>
      forall id | id in w.chains && id in undeletable && id in TenantMembers(after, tenant) :: Unaffected(w.dir, after, id)
  {
    CoherentAfterDeletesIff(w, tenant, after, TenantMembers(after, tenant) - undeletable);
  }

  /** Replacing a tenant's system workspace 1 by 2 while the deletion of chain 0 fails
      leaves a live workspace with a stale chain. */
  lemma {:induction false} FailedDeleteLeavesStale()
    ensures var before := map[0 := Workspace(7, Prod, false), 1 := Workspace(7, Prod, true)];
      var after := map[0 := Workspace(7, Prod, false), 2 := Workspace(7, Prod, true)];
      var chains := map[0 := Chain(0, 1, 7, [0, 1])];
      Coherent(before, chains) && Confined(before, after, 7) && !Coherent(after, chains - {2})
  {
    var before := map[0 := Workspace(7, Prod, false), 1 := Workspace(7, Prod, true)];
    var after := map[0 := Workspace(7, Prod, false), 2 := Workspace(7, Prod, true)];
    assert Members(before, 7, Prod, true) == {1} && Members(after, 7, Prod, true) == {2};
    assert FreshChain(before, 0) == Some(Chain(0, 1, 7, [0, 1]));
    assert FreshChain(after, 0) == Some(Chain(0, 2, 7, [0, 2]));
  }

  lemma {:induction false} ChangeElsewhere(w: World, tenant: Uuid, after: Directory)
    requires Coherent(w.dir, w.chains) && Confined(w.dir, after, tenant)
    ensures forall id | id in w.chains && id in after && after[id].tenant != tenant ::
      FreshChain(after, id) == Some(w.chains[id])
  {
    forall id | id in w.chains && id in after && after[id].tenant != tenant
      ensures FreshChain(after, id) == Some(w.chains[id])
    {
      forall env ensures Members(w.dir, after[id].tenant, env, true) == Members(after, after[id].tenant, env, true) {
      }
      UnchangedChain(w.dir, after, id);
    }
  }

  // -------------------------------------------------------------- the code itself

  function InEnvironment(dir: Directory, tenant: Uuid, env: Environment): set<Uuid> {
    set id | id in dir && dir[id].tenant == tenant && dir[id].env == env
  }

  /** Whose turn is over when the cursor stands at `after`: all systems, once there
      is a cursor, and the others from the cursor up. */
  ghost function Passed(systems: set<Uuid>, others: set<Uuid>, after: Option<Uuid>): set<Uuid> {
    if after.None? then {} else systems + (others - Below(others, after))
  }

  /** A page moves the cursor down past exactly its own rows, and the last page past all. */
  lemma {:induction false} PagePasses(systems: set<Uuid>, others: set<Uuid>, after: Option<Uuid>, next: Option<Uuid>, page: set<Uuid>)
    requires var o := Below(others, after);
      && page == Below(systems, after) + (if next.None? then o else o - Below(o, next))
      && (next.Some? ==> next.value in o)
    ensures Passed(systems, others, after) + page
      == if next.None? then systems + others else Passed(systems, others, next)
    ensures next.Some? && after.Some? ==> next.value < after.value
  {
  }

  lemma {:induction false} PageAdvances(dir: Directory, tenant: Uuid, env: Environment, after: Option<Uuid>)
    requires OneSystemEach(dir)
    ensures var (page, next) := ListByTenant(dir, tenant, env, after);
      && PassedIn(dir, tenant, env, after) + Elements(page)
         == (if next.None? then InEnvironment(dir, tenant, env) else PassedIn(dir, tenant, env, next))
      && (next.Some? && after.Some? ==> next.value < after.value)
  {
    var (page, next) := ListByTenant(dir, tenant, env, after);
    var systems, others := Members(dir, tenant, env, true), Members(dir, tenant, env, false);
    PageIsComplete(dir, tenant, env, after);
    PagePasses(systems, others, after, next, Elements(page));
    EnvironmentSplits(dir, tenant, env);
  }

  lemma {:induction false} EnvironmentSplits(dir: Directory, tenant: Uuid, env: Environment)
    ensures InEnvironment(dir, tenant, env) == Members(dir, tenant, env, true) + Members(dir, tenant, env, false)
  {
  }

  ghost function PassedIn(dir: Directory, tenant: Uuid, env: Environment, after: Option<Uuid>): set<Uuid> {
    Passed(Members(dir, tenant, env, true), Members(dir, tenant, env, false), after)
  }

  lemma {:induction false} RemovedTwice(chains: Chains, a: set<Uuid>, b: set<Uuid>, kept: set<Uuid>)
    ensures chains - (a - kept) - (b - kept) == chains - (a + b - kept)
  {
  }

  predicate Submap(chains: Chains, was: Chains) {
    forall id | id in chains :: id in was && chains[id] == was[id]
  }

  /** A tenant's change and whatever an invalidation then left of the cache are one
      step of the runs, as long as no affected chain is left. */
  lemma {:induction false} InvalidationIsAStep(w: World, tenant: Uuid, after: Directory, left: Chains)
    requires OneSystemEach(after) && Confined(w.dir, after, tenant) && Submap(left, w.chains)
    requires forall id | id in left && id in TenantMembers(after, tenant) :: Unaffected(w.dir, after, id)
    ensures Next(w, ChangeTenant(tenant, after, w.chains.Keys - left.Keys)) == World(after, left)
  {
    assert w.chains - (w.chains.Keys - left.Keys) == left;
  }

  /** With no chain of the tenant left, a change confined to it leaves nothing stale. */
  lemma {:induction false} AllRemovedIsCoherent(dir: Directory, tenant: Uuid, was: Chains, chains: Chains)
    requires Submap(chains, was)
    ensures (forall id | id in chains :: id !in TenantMembers(dir, tenant)) ==>
      forall before | Coherent(before, was) && Confined(before, dir, tenant) :: Coherent(dir, chains)
  {
    if forall id | id in chains :: id !in TenantMembers(dir, tenant) {
      forall before | Coherent(before, was) && Confined(before, dir, tenant) ensures Coherent(dir, chains) {
        ChangeElsewhere(World(before, was), tenant, dir);
      }
    }
  }

  /** Caching what a fresh lookup builds keeps the cache coherent. */
  lemma {:induction false} CachingKeepsCoherent(dir: Directory, chains: Chains, id: Uuid, chain: Chain)
    requires Coherent(dir, chains) && FreshChain(dir, id) == Some(chain)
    ensures Coherent(dir, chains[id := chain])
  {
  }

  /** Which of the deletions by pattern succeed. */
  datatype Patterns = Patterns(chainsOk: bool, adaptersOk: bool, templatesOk: bool)

  class ResolutionCache {
    /** What the workspace store holds. */
    var dir: Directory
    var chains: Chains
    /** Which "adapter:*" and "resolved_template:*" entries exist. */
    var adapters: set<Uuid>
    var templates: set<Uuid>

    constructor (dir: Directory)
      ensures this.dir == dir && chains == map[] && adapters == {} && templates == {}
    {
      this.dir, chains, adapters, templates := dir, map[], {}, {};
    }

    /** ChainResolver.Resolve. The cache may fail to be read or written, and the
        store may fail; a coherent cache never makes a difference to the answer. */
    method Resolve(id: Uuid, cacheReadable: bool, cacheWritable: bool, storeOk: bool) returns (r: Option<Chain>)
      requires Coherent(dir, chains)
      modifies this`chains
      ensures Coherent(dir, chains)
      ensures id in dir && r.Some? ==> r == FreshChain(dir, id)
      ensures storeOk && (id in dir || id !in old(chains)) ==> r == FreshChain(dir, id)
      ensures cacheReadable && cacheWritable && storeOk ==> chains == ChainsAfterResolve(dir, old(chains), id)
    {
      if cacheReadable && id in chains {
        return Some(chains[id]);
      }
      if !storeOk || id !in dir {
        return None;
      }
      var ws := dir[id];
      var chain;
      if ws.isSystem {
        chain := Chain(id, id, ws.tenant, [id]);
      } else {
        var sys := SystemOf(dir, ws.tenant, ws.env);
        if sys.None? {
          return None;
        }
        chain := Chain(id, sys.value, ws.tenant, [id, sys.value]);
      }
      CachingKeepsCoherent(dir, chains, id, chain);
      if cacheWritable {
        chains := chains[id := chain];
      }
      return Some(chain);
    }

    /** A failed Delete is ignored. */
    method InvalidateWorkspace(id: Uuid, deleteOk: bool)
      modifies this`chains
      ensures chains == if deleteOk then old(chains) - {id} else old(chains)
    {
      if deleteOk {
        chains := chains - {id};
      }
    }

    /** Three deletions by pattern; a failed one is ignored. */
    method InvalidateGlobal(patterns: Patterns)
      modifies this`chains, this`adapters, this`templates
      ensures chains == if patterns.chainsOk then map[] else old(chains)
      ensures adapters == if patterns.adaptersOk then {} else old(adapters)
      ensures templates == if patterns.templatesOk then {} else old(templates)
    {
      if patterns.chainsOk {
        chains := map[];
      }
      if patterns.adaptersOk {
        adapters := {};
      }
      if patterns.templatesOk {
        templates := {};
      }
    }

    /** The loop over one page. */
    method InvalidatePage(page: seq<Uuid>, undeletable: set<Uuid>)
      modifies this`chains
      ensures chains == old(chains) - (Elements(page) - undeletable)
    {
      for i := 0 to |page|
        invariant chains == old(chains) - (Elements(page[..i]) - undeletable)
      {
        InvalidateWorkspace(page[i], page[i] !in undeletable);
        assert page[..i + 1] == page[..i] + [page[i]];
        ElementsOfAppend(page[..i], [page[i]]);
      }
      assert page[..|page|] == page;
    }

    /** The pagination loop of one environment; false if a page could not be listed.
        `undeletable` are the keys whose Delete fails. */
    method InvalidateEnvironment(tenant: Uuid, env: Environment, listOk: nat -> bool, undeletable: set<Uuid>)
      returns (ok: bool)
      requires OneSystemEach(dir)
      modifies this`chains
      ensures (forall n :: listOk(n)) ==> ok
      ensures ok ==> chains == old(chains) - (InEnvironment(dir, tenant, env) - undeletable)
      ensures Submap(chains, old(chains))
    {
      var cursor: Option<Uuid> := None;
      var n := 0;
      while true
        invariant chains == old(chains) - (PassedIn(dir, tenant, env, cursor) - undeletable)
        decreases cursor.None?, if cursor.Some? then cursor.value else 0
      {
        if !listOk(n) {
          return false;
        }
        var (page, next) := ListByTenant(dir, tenant, env, cursor);
        PageAdvances(dir, tenant, env, cursor);
        RemovedTwice(old(chains), PassedIn(dir, tenant, env, cursor), Elements(page), undeletable);
        InvalidatePage(page, undeletable);
        if next.None? {
          return true;
        }
        cursor, n := next, n + 1;
      }
    }

    /** InvalidateTenantWorkspaces over both environments. When every page is listed,
        exactly the tenant's chains whose Delete succeeded are gone and nothing else
        is touched; when a listing fails midway, the fallback clears every chain. */
    method InvalidateTenantWorkspaces(
        tenant: Uuid, listOk: (Environment, nat) -> bool, undeletable: set<Uuid>, patterns: Patterns)
      returns (ghost fellBack: bool)
      requires OneSystemEach(dir)
      modifies this`chains, this`adapters, this`templates
      ensures (forall id | id in old(chains) && id in TenantMembers(dir, tenant) :: id !in undeletable) && patterns.chainsOk ==>
        forall before | Coherent(before, old(chains)) && Confined(before, dir, tenant) :: Coherent(dir, chains)
      ensures (forall env, n :: listOk(env, n)) ==> !fellBack
      ensures !fellBack ==>
        && chains == old(chains) - (TenantMembers(dir, tenant) - undeletable)
        && adapters == old(adapters) && templates == old(templates)
      ensures fellBack && patterns.chainsOk ==> chains == map[]
      ensures fellBack && patterns.adaptersOk ==> adapters == {}
      ensures fellBack && patterns.templatesOk ==> templates == {}
      ensures Submap(chains, old(chains))
    {
      ghost var done: set<Uuid> := {};
      for e := 0 to 2
        invariant done == (if e == 0 then {} else InEnvironment(dir, tenant, Prod))
          + (if e == 2 then InEnvironment(dir, tenant, Test) else {})
        invariant chains == old(chains) - (done - undeletable)
        invariant adapters == old(adapters) && templates == old(templates)
      {
        var env := if e == 0 then Prod else Test;
        RemovedTwice(old(chains), done, InEnvironment(dir, tenant, env), undeletable);
        var ok := InvalidateEnvironment(tenant, env, (k: nat) => listOk(env, k), undeletable);
        if !ok {
          InvalidateGlobal(patterns);
          AllRemovedIsCoherent(dir, tenant, old(chains), chains);
          return true;
        }
        done := done + InEnvironment(dir, tenant, env);
      }
      assert done == TenantMembers(dir, tenant);
      AllRemovedIsCoherent(dir, tenant, old(chains), chains);
      return false;
    }
  }
}
