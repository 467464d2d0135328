/** Sharing of system adapters and sender identities: internal/service/adapter_access.go.

    Workspaces, adapters and identities are fixed; grants change only through the
    two Replace operations, selections only through ValidateTemplateTypeSelection. */
module AdapterAccess {
  import opened Common
  import opened Workspaces

  datatype AdapterType = SES | Gmail | SMTP | OtherType(name: string)

  /** `workspace` is None for a global adapter. */
  datatype Adapter = Adapter(workspace: Option<Uuid>, adapterType: AdapterType)

  datatype IdentityType = EmailIdentity | DomainIdentity

  datatype Identity = Identity(adapter: Uuid, identityType: IdentityType)

  datatype Error =
    | NotFound | AccessDenied | SenderIdentityRequired | SenderIdentityDenied
    | Forbidden | Validation | GrantInUse

  datatype Fixed = Fixed(workspaces: Directory, adapters: map<Uuid, Adapter>, identities: map<Uuid, Identity>)

  /** A template type's selection; `workspace` is None for a global type. */
  datatype Selection = Selection(workspace: Option<Uuid>, adapter: Option<Uuid>, identity: Option<Uuid>)

  /** Grants by adapter and by identity, and the live template types. */
  datatype State = State(
    adapterGrants: map<Uuid, seq<Uuid>>,
    identityGrants: map<Uuid, seq<Uuid>>,
    selections: map<Uuid, Selection>)

  function GrantsOf(grants: map<Uuid, seq<Uuid>>, id: Uuid): seq<Uuid> {
    if id in grants then grants[id] else []
  }

  predicate UsesIdentityGrants(t: AdapterType) {
    t == SES || t == SMTP
  }

  // ------------------------------------------------------------------- decisions

  function ValidateSenderIdentity(f: Fixed, adapter: Uuid, identity: Option<Uuid>): Option<Error> {
    match identity
    case None => None
    case Some(id) =>
      if id !in f.identities then Some(NotFound)
      else if f.identities[id] != Identity(adapter, EmailIdentity) then Some(SenderIdentityDenied)
      else None
  }

  /** Workspaces reach the service as loaded records. */
  predicate Known(f: Fixed, ws: Option<Uuid>) {
    ws.Some? ==> ws.value in f.workspaces
  }

  /** ValidateTemplateTypeSelection; None is success. */
  function Validate(f: Fixed, s: State, workspace: Option<Uuid>, adapterId: Option<Uuid>, identityId: Option<Uuid>)
    : Option<Error>
    requires Known(f, workspace)
  {
    if adapterId.None? || workspace.None? || f.workspaces[workspace.value].isSystem then None
    else if adapterId.value !in f.adapters then Some(NotFound)
    else
      var ws, a := workspace.value, adapterId.value;
      var adapter := f.adapters[a];
      if adapter.workspace.None? || adapter.workspace.value == ws then ValidateSenderIdentity(f, a, identityId)
      else if adapter.workspace.value !in f.workspaces then Some(NotFound)
      else
        var owner := f.workspaces[adapter.workspace.value];
        if owner.tenant != f.workspaces[ws].tenant || !owner.isSystem then Some(AccessDenied)
        else if adapter.adapterType == Gmail then
          if ws !in GrantsOf(s.adapterGrants, a) then Some(AccessDenied)
          else ValidateSenderIdentity(f, a, identityId)
        else if UsesIdentityGrants(adapter.adapterType) then
          if identityId.None? then Some(SenderIdentityRequired)
          else
            var e := ValidateSenderIdentity(f, a, identityId);
            if e.Some? then e
            else if ws !in GrantsOf(s.identityGrants, identityId.value) then Some(SenderIdentityDenied)
            else None
        else Some(AccessDenied)
  }

  /** ListGrantedIdentitiesForWorkspace. */
  function GrantedIdentities(f: Fixed, s: State, adapter: Uuid, ws: Uuid): set<Uuid> {
    set id | id in f.identities && f.identities[id] == Identity(adapter, EmailIdentity)
      && ws in GrantsOf(s.identityGrants, id)
  }

  datatype Access = Access(shared: bool, editable: bool)

  function GetAdapterAccess(f: Fixed, s: State, workspace: Option<Uuid>, a: Uuid): Result<Access, Error>
    requires Known(f, workspace)
  {
    if a !in f.adapters then Err(NotFound)
    else
      var adapter := f.adapters[a];
      if workspace.None? then if adapter.workspace.None? then Ok(Access(false, true)) else Err(AccessDenied)
      else if adapter.workspace == workspace then Ok(Access(false, true))
      else if adapter.workspace.None? then Ok(Access(false, false))
      else if adapter.workspace.value !in f.workspaces then Err(NotFound)
      else
        var ws, owner := workspace.value, f.workspaces[adapter.workspace.value];
        if owner.tenant != f.workspaces[ws].tenant || !owner.isSystem then Err(AccessDenied)
        else if adapter.adapterType == Gmail then
          if ws in GrantsOf(s.adapterGrants, a) then Ok(Access(true, false)) else Err(AccessDenied)
        else if UsesIdentityGrants(adapter.adapterType) then
          if GrantedIdentities(f, s, a, ws) != {} then Ok(Access(true, false)) else Err(AccessDenied)
        else Err(AccessDenied)
  }

  /** An ordinary workspace can see every adapter it may select. */
  lemma {:induction false} SelectableIsVisible(f: Fixed, s: State, ws: Uuid, a: Uuid, identity: Option<Uuid>)
    requires ws in f.workspaces && !f.workspaces[ws].isSystem
    requires Validate(f, s, Some(ws), Some(a), identity) == None
    ensures GetAdapterAccess(f, s, Some(ws), a).Ok?
  {
    var adapter := f.adapters[a];
    if adapter.workspace.Some? && adapter.workspace.value != ws && UsesIdentityGrants(adapter.adapterType) {
      assert identity.value in GrantedIdentities(f, s, a, ws);
    }
  }

  /** For a shared SES or SMTP adapter seeing is not yet selecting: that takes one
      of its granted email identities, and then suffices. */
  lemma {:induction false} VisibleIsSelectableIff(f: Fixed, s: State, ws: Uuid, a: Uuid, identity: Option<Uuid>)
    requires ws in f.workspaces && !f.workspaces[ws].isSystem
    requires GetAdapterAccess(f, s, Some(ws), a) == Ok(Access(true, false)) && UsesIdentityGrants(f.adapters[a].adapterType)
    ensures Validate(f, s, Some(ws), Some(a), identity) == None <==>
      identity.Some? && identity.value in GrantedIdentities(f, s, a, ws)
  {
  }

  /** No identity is asked for, or an email identity of the adapter. */
  predicate IdentityFits(f: Fixed, a: Uuid, identity: Option<Uuid>) {
    identity.None? || (identity.value in f.identities && f.identities[identity.value] == Identity(a, EmailIdentity))
  }

  /** A system workspace of the same tenant as `ws` shares the adapter. */
  predicate IsSharedWith(f: Fixed, a: Uuid, ws: Uuid)
    requires a in f.adapters && ws in f.workspaces
  {
    && f.adapters[a].workspace.Some? && f.adapters[a].workspace.value != ws
    && f.adapters[a].workspace.value in f.workspaces
    && f.workspaces[f.adapters[a].workspace.value].isSystem
    && f.workspaces[f.adapters[a].workspace.value].tenant == f.workspaces[ws].tenant
  }

  /** System workspaces and global types may select anything, or nothing. */
  lemma {:induction false} SystemSelectsFreely(f: Fixed, s: State, workspace: Option<Uuid>, adapter: Option<Uuid>, identity: Option<Uuid>)
    requires Known(f, workspace) && (workspace.None? || f.workspaces[workspace.value].isSystem || adapter.None?)
    ensures Validate(f, s, workspace, adapter, identity) == None
  {
  }

  /** What an ordinary workspace may select: its own and global adapters with an
      identity that fits; a shared Gmail adapter it was granted likewise; a shared SES
      or SMTP adapter with a fitting identity it was granted; nothing else. */
  lemma {:induction false} OrdinarySelectsIff(f: Fixed, s: State, ws: Uuid, a: Uuid, identity: Option<Uuid>)
    requires ws in f.workspaces && !f.workspaces[ws].isSystem
    ensures Validate(f, s, Some(ws), Some(a), identity) == None <==>
      && a in f.adapters && IdentityFits(f, a, identity)
      && var t := f.adapters[a].adapterType;
         || f.adapters[a].workspace.None? || f.adapters[a].workspace == Some(ws)
         || (IsSharedWith(f, a, ws) && t == Gmail && a in s.adapterGrants && ws in s.adapterGrants[a])
         || (IsSharedWith(f, a, ws) && t in {SES, SMTP} && identity.Some?
             && identity.value in s.identityGrants && ws in s.identityGrants[identity.value])
  {
  }

  /** The refusals a caller can act on: an identity is asked for exactly when a shared
      SES or SMTP adapter is selected without one, and something is not found exactly
      when the adapter, its owner, or an identity that gets looked at does not exist. */
  lemma {:induction false} RefusalsAre(f: Fixed, s: State, ws: Uuid, a: Uuid, identity: Option<Uuid>)
    requires ws in f.workspaces && !f.workspaces[ws].isSystem
    ensures Validate(f, s, Some(ws), Some(a), identity) == Some(SenderIdentityRequired) <==>
      a in f.adapters && IsSharedWith(f, a, ws) && f.adapters[a].adapterType in {SES, SMTP} && identity.None?
    ensures Validate(f, s, Some(ws), Some(a), identity) == Some(NotFound) <==>
      || a !in f.adapters
      || (f.adapters[a].workspace.Some? && f.adapters[a].workspace.value != ws && f.adapters[a].workspace.value !in f.workspaces)
      || (identity.Some? && identity.value !in f.identities
          && (f.adapters[a].workspace.None? || f.adapters[a].workspace == Some(ws)
              || (IsSharedWith(f, a, ws)
                  && (f.adapters[a].adapterType in {SES, SMTP}
                      || (f.adapters[a].adapterType == Gmail && ws in GrantsOf(s.adapterGrants, a))))))
  {
  }

  /** What a workspace sees of an adapter: its own, editable; global ones; and shared
      ones it holds a grant for, the adapter's or that of one of its email identities. */
  lemma {:induction false} WorkspaceSeesIff(f: Fixed, s: State, ws: Uuid, a: Uuid)
    requires ws in f.workspaces
    ensures var r := GetAdapterAccess(f, s, Some(ws), a);
      && (r.Ok? ==> a in f.adapters && r.value.editable == (f.adapters[a].workspace == Some(ws))
                    && r.value.shared == IsSharedWith(f, a, ws))
      && (r.Ok? <==>
            && a in f.adapters
            && var t := f.adapters[a].adapterType;
               || f.adapters[a].workspace.None? || f.adapters[a].workspace == Some(ws)
               || (IsSharedWith(f, a, ws) && t == Gmail && a in s.adapterGrants && ws in s.adapterGrants[a])
               || (IsSharedWith(f, a, ws) && t in {SES, SMTP} && HoldsIdentityOf(f, s, a, ws)))
  {
    if GrantedIdentities(f, s, a, ws) != {} {
      var id :| id in GrantedIdentities(f, s, a, ws);
      assert HoldsIdentityOf(f, s, a, ws);
    }
    if HoldsIdentityOf(f, s, a, ws) {
      var id :| id in f.identities && f.identities[id] == Identity(a, EmailIdentity)
        && id in s.identityGrants && ws in s.identityGrants[id];
      assert id in GrantedIdentities(f, s, a, ws);
    }
  }

  /** The global view sees global adapters only, and may edit them. */
  lemma {:induction false} GlobalSeesIff(f: Fixed, s: State, a: Uuid)
    ensures GetAdapterAccess(f, s, None, a).Ok? <==> a in f.adapters && f.adapters[a].workspace.None?
    ensures GetAdapterAccess(f, s, None, a).Ok? ==> GetAdapterAccess(f, s, None, a).value == Access(false, true)
  {
  }

  predicate HoldsIdentityOf(f: Fixed, s: State, a: Uuid, ws: Uuid) {
    exists id | id in f.identities ::
      f.identities[id] == Identity(a, EmailIdentity) && id in s.identityGrants && ws in s.identityGrants[id]
  }

  // --------------------------------------------------------------------- targets

  /** The ordinary workspaces on the one page that validWorkspaceTargets reads. */
  function AllowedTargets(f: Fixed, tenant: Uuid, env: Environment): set<Uuid> {
    Ordinary(f.workspaces, ListByTenant(f.workspaces, tenant, env, None).0)
  }

  /** Requested ids without duplicates, in first-occurrence order. */
  function FirstOccurrences(s: seq<Uuid>): seq<Uuid> {
    if s == [] then []
    else
      var front, last := FirstOccurrences(s[..|s| - 1]), s[|s| - 1];
      if last in front then front else front + [last]
  }

  /** Going on by one element adds it, unless it occurred before. */
  lemma {:induction false} FirstOccurrencesNext(s: seq<Uuid>, i: nat)
    requires i < |s| && Elements(FirstOccurrences(s[..i])) == Elements(s[..i])
    ensures var r := FirstOccurrences(s[..i]);
      && FirstOccurrences(s[..i + 1]) == (if s[i] in Elements(s[..i]) then r else r + [s[i]])
      && Elements(FirstOccurrences(s[..i + 1])) == Elements(s[..i + 1]) == Elements(s[..i]) + {s[i]}
  {
    var r := FirstOccurrences(s[..i]);
    assert s[..i + 1][..i] == s[..i];
    assert s[..i + 1] == s[..i] + [s[i]];
    ElementsOfAppend(s[..i], [s[i]]);
    ElementsOfAppend(r, [s[i]]);
    assert s[i] in r <==> s[i] in Elements(r);
  }

  function FirstIndex(s: seq<Uuid>, x: Uuid): (i: nat)
    requires x in s
    ensures i < |s| && s[i] == x && x !in s[..i]
  {
    if s[0] == x then 0 else 1 + FirstIndex(s[1..], x)
  }

  lemma {:induction false} FirstOccurrencesAreFirst(s: seq<Uuid>)
    ensures var r := FirstOccurrences(s);
      && NoDuplicates(r) && Elements(r) == Elements(s)
      && forall i, j | 0 <= i < j < |r| :: r[i] in s && r[j] in s && FirstIndex(s, r[i]) < FirstIndex(s, r[j])
  {
    if s != [] {
      var n := |s| - 1;
      var front, last := s[..n], s[n];
      FirstOccurrencesAreFirst(front);
      var r := FirstOccurrences(front);
      assert s == front + [last];
      ElementsOfAppend(front, [last]);
      forall x | x in front ensures FirstIndex(s, x) == FirstIndex(front, x) {
        FirstIndexUnique(s, x, FirstIndex(front, x));
      }
      if last !in r {
        assert last !in Elements(r);
        FirstIndexUnique(s, last, n);
        ElementsOfAppend(r, [last]);
        forall i | 0 <= i < |r| ensures r[i] in front && FirstIndex(s, r[i]) < n {
          assert r[i] in Elements(r);
        }
      } else {
        assert last in Elements(r);
      }
      forall i | 0 <= i < |r| ensures r[i] in front {
        assert r[i] in Elements(r);
      }
    }
  }

  lemma {:induction false} FirstIndexUnique(s: seq<Uuid>, x: Uuid, i: nat)
    requires i < |s| && s[i] == x && x !in s[..i]
    ensures FirstIndex(s, x) == i
  {
  }

  function Targets(f: Fixed, tenant: Uuid, env: Environment, requested: seq<Uuid>): Result<seq<Uuid>, Error> {
    if Elements(requested) <= AllowedTargets(f, tenant, env) then Ok(FirstOccurrences(requested)) else Err(Validation)
  }

  function Ordinary(dir: Directory, page: seq<Uuid>): set<Uuid> {
    set id | id in page && id in dir && !dir[id].isSystem
  }

  lemma {:induction false} OrdinaryOnPage(dir: Directory, page: seq<Uuid>, systems: set<Uuid>, others: set<Uuid>)
    requires Elements(page) == systems + others
    requires forall id | id in systems :: id in dir && dir[id].isSystem
    requires forall id | id in others :: id in dir && !dir[id].isSystem
    ensures Ordinary(dir, page) == others
  {
    assert forall id :: id in page <==> id in Elements(page);
  }

  lemma {:induction false} EverythingIsBelowNone(s: set<Uuid>)
    ensures Below(s, None) == s
  {
  }

  lemma {:induction false} AllowedTargetsAre(f: Fixed, tenant: Uuid, env: Environment)
    requires OneSystemEach(f.workspaces)
    ensures var others, next := Members(f.workspaces, tenant, env, false), ListByTenant(f.workspaces, tenant, env, None).1;
      && AllowedTargets(f, tenant, env) == (if next.None? then others else others - Below(others, next))
      && (next.None? <==> |Members(f.workspaces, tenant, env, true)| + |others| <= MAX_LIMIT)
      && (next.Some? ==> Below(others, next) != {})
  {
    var systems, others := Members(f.workspaces, tenant, env, true), Members(f.workspaces, tenant, env, false);
    var (page, next) := ListByTenant(f.workspaces, tenant, env, None);
    PageIsComplete(f.workspaces, tenant, env, None);
    EverythingIsBelowNone(systems);
    EverythingIsBelowNone(others);
    OrdinaryOnPage(f.workspaces, page, systems, if next.None? then others else others - Below(others, next));
  }

  /** The service reads one page only, so every ordinary workspace of the tenant and
      environment can be granted exactly when they all fit on it. */
  lemma {:induction false} AllTargetsAllowedIff(f: Fixed, tenant: Uuid, env: Environment)
    requires OneSystemEach(f.workspaces)
    ensures AllowedTargets(f, tenant, env) <= Members(f.workspaces, tenant, env, false)
    ensures AllowedTargets(f, tenant, env) == Members(f.workspaces, tenant, env, false) <==>
      |Members(f.workspaces, tenant, env, true)| + |Members(f.workspaces, tenant, env, false)| <= MAX_LIMIT
  {
    AllowedTargetsAre(f, tenant, env);
    var others, next := Members(f.workspaces, tenant, env, false), ListByTenant(f.workspaces, tenant, env, None).1;
    if next.Some? {
      var x :| x in Below(others, next);
      assert x in others && x !in AllowedTargets(f, tenant, env);
    }
  }

  /** A tenant with at most 100 workspaces in an environment can grant to any of its
      ordinary ones, and to nothing else. */
  lemma {:induction false} SmallTenantIsGrantable(f: Fixed, tenant: Uuid, env: Environment, requested: seq<Uuid>)
    requires OneSystemEach(f.workspaces)
    requires |Members(f.workspaces, tenant, env, true)| + |Members(f.workspaces, tenant, env, false)| <= 100
    ensures Targets(f, tenant, env, requested).Ok? <==>
      forall ws | ws in requested :: ws in f.workspaces && f.workspaces[ws] == Workspace(tenant, env, false)
  {
    AllTargetsAllowedIff(f, tenant, env);
    assert forall ws :: ws in requested <==> ws in Elements(requested);
  }

  /** A directory of n ordinary workspaces of one tenant. */
  function Crowd(n: nat): (dir: Directory)
    ensures forall id | id in dir :: id < n && dir[id] == Workspace(0, Prod, false)
  {
    if n == 0 then map[] else Crowd(n - 1)[n - 1 := Workspace(0, Prod, false)]
  }

  lemma {:induction false} CrowdSize(n: nat)
    ensures Members(Crowd(n), 0, Prod, true) == {} && |Members(Crowd(n), 0, Prod, false)| == n
  {
    if n > 0 {
      CrowdSize(n - 1);
      assert Members(Crowd(n), 0, Prod, false) == Members(Crowd(n - 1), 0, Prod, false) + {n - 1};
    }
  }

  /** In a tenant of one ordinary workspace more than the limit, one is refused as an
      invalid target. */
  lemma {:induction false} LargeTenantIsCut(f: Fixed)
    requires f.workspaces == Crowd(MAX_LIMIT + 1)
    ensures exists ws :: ws in Members(f.workspaces, 0, Prod, false) && Targets(f, 0, Prod, [ws]) == Err(Validation)
  {
    CrowdSize(MAX_LIMIT + 1);
    AllTargetsAllowedIff(f, 0, Prod);
    var ws :| ws in Members(f.workspaces, 0, Prod, false) && ws !in AllowedTargets(f, 0, Prod);
    assert ws in Elements([ws]);
    assert Targets(f, 0, Prod, [ws]) == Err(Validation);
  }

  // ------------------------------------------------------------------ operations

  function Subtract(current: seq<Uuid>, desired: seq<Uuid>): seq<Uuid> {
    if current == [] then []
    else
      var last := current[|current| - 1];
      Subtract(current[..|current| - 1], desired) + if last in desired then [] else [last]
  }

  lemma {:induction false} SubtractMember(current: seq<Uuid>, desired: seq<Uuid>, x: Uuid)
    ensures x in Subtract(current, desired) <==> x in current && x !in desired
  {
    if current != [] {
      SubtractMember(current[..|current| - 1], desired, x);
      assert current == current[..|current| - 1] + [current[|current| - 1]];
    }
  }

  /** ListWorkspacesUsingAdapter finds something. */
  predicate AdapterInUse(s: State, a: Uuid, workspaces: seq<Uuid>) {
    exists tt | tt in s.selections ::
      s.selections[tt].adapter == Some(a) && s.selections[tt].workspace.Some? && s.selections[tt].workspace.value in workspaces
  }

  /** ListWorkspacesUsingSenderIdentity finds something. */
  predicate IdentityInUse(s: State, id: Uuid, workspaces: seq<Uuid>) {
    exists tt | tt in s.selections ::
      s.selections[tt].identity == Some(id) && s.selections[tt].workspace.Some? && s.selections[tt].workspace.value in workspaces
  }

  predicate IsSystem(f: Fixed, ws: Option<Uuid>) {
    ws.Some? && ws.value in f.workspaces && f.workspaces[ws.value].isSystem
  }

  /** ReplaceAdapterWorkspaceAccess. */
  function ReplaceAdapter(f: Fixed, s: State, sys: Option<Uuid>, a: Uuid, requested: seq<Uuid>): Result<State, Error> {
    if !IsSystem(f, sys) then Err(Forbidden)
    else if a !in f.adapters then Err(NotFound)
    else if f.adapters[a] != Adapter(sys, Gmail) then Err(Validation)
    else
      var targets := Targets(f, f.workspaces[sys.value].tenant, f.workspaces[sys.value].env, requested);
      if targets.Err? then Err(targets.error)
      else if AdapterInUse(s, a, Subtract(GrantsOf(s.adapterGrants, a), targets.value)) then Err(GrantInUse)
      else Ok(s.(adapterGrants := s.adapterGrants[a := targets.value]))
  }

  /** ReplaceIdentityWorkspaceAccess. */
  function ReplaceIdentity(f: Fixed, s: State, sys: Option<Uuid>, a: Uuid, id: Uuid, requested: seq<Uuid>)
    : Result<State, Error>
  {
    if !IsSystem(f, sys) then Err(Forbidden)
    else if a !in f.adapters then Err(NotFound)
    else if f.adapters[a].workspace != sys || !UsesIdentityGrants(f.adapters[a].adapterType) then Err(Validation)
    else if id !in f.identities then Err(NotFound)
    else if f.identities[id] != Identity(a, EmailIdentity) then Err(Validation)
    else
      var targets := Targets(f, f.workspaces[sys.value].tenant, f.workspaces[sys.value].env, requested);
      if targets.Err? then Err(targets.error)
      else if IdentityInUse(s, id, Subtract(GrantsOf(s.identityGrants, id), targets.value)) then Err(GrantInUse)
      else Ok(s.(identityGrants := s.identityGrants[id := targets.value]))
  }

  predicate Uses(s: State, a: Uuid, ws: Uuid) {
    exists tt | tt in s.selections :: s.selections[tt].adapter == Some(a) && s.selections[tt].workspace == Some(ws)
  }

  predicate UsesIdentity(s: State, id: Uuid, ws: Uuid) {
    exists tt | tt in s.selections :: s.selections[tt].identity == Some(id) && s.selections[tt].workspace == Some(ws)
  }

  /** When sharing a Gmail adapter anew succeeds: its system workspace asks, for
      allowed targets, and no workspace that loses its grant uses it. */
  lemma {:induction false} ReplaceAdapterSucceedsIff(f: Fixed, s: State, sys: Option<Uuid>, a: Uuid, requested: seq<Uuid>)
    ensures ReplaceAdapter(f, s, sys, a, requested).Ok? <==>
      && sys.Some? && sys.value in f.workspaces && f.workspaces[sys.value].isSystem
      && a in f.adapters && f.adapters[a] == Adapter(sys, Gmail)
      && (forall ws | ws in requested :: ws in AllowedTargets(f, f.workspaces[sys.value].tenant, f.workspaces[sys.value].env))
      && (a in s.adapterGrants ==> forall ws | ws in s.adapterGrants[a] && ws !in requested :: !Uses(s, a, ws))
  {
    if sys.Some? && sys.value in f.workspaces {
      var current, targets := GrantsOf(s.adapterGrants, a), FirstOccurrences(requested);
      FirstOccurrencesAreFirst(requested);
      assert forall ws :: ws in targets <==> ws in Elements(targets);
      assert forall ws :: ws in requested <==> ws in Elements(requested);
      forall ws ensures ws in Subtract(current, targets) <==> ws in current && ws !in requested {
        SubtractMember(current, targets, ws);
      }
    }
  }

  /** It is refused as in use exactly when usage is all that is wrong. */
  lemma {:induction false} GrantInUseIff(f: Fixed, s: State, sys: Option<Uuid>, a: Uuid, requested: seq<Uuid>)
    ensures ReplaceAdapter(f, s, sys, a, requested) == Err(GrantInUse) <==>
      && ReplaceAdapter(f, s.(selections := map[]), sys, a, requested).Ok?
      && a in s.adapterGrants && exists ws :: ws in s.adapterGrants[a] && ws !in requested && Uses(s, a, ws)
  {
    ReplaceAdapterSucceedsIff(f, s, sys, a, requested);
    ReplaceAdapterSucceedsIff(f, s.(selections := map[]), sys, a, requested);
  }

  /** Likewise for an email identity of an SES or SMTP adapter. */
  lemma {:induction false} ReplaceIdentitySucceedsIff(f: Fixed, s: State, sys: Option<Uuid>, a: Uuid, id: Uuid, requested: seq<Uuid>)
    ensures ReplaceIdentity(f, s, sys, a, id, requested).Ok? <==>
      && sys.Some? && sys.value in f.workspaces && f.workspaces[sys.value].isSystem
      && a in f.adapters && f.adapters[a].workspace == sys && f.adapters[a].adapterType in {SES, SMTP}
      && id in f.identities && f.identities[id] == Identity(a, EmailIdentity)
      && (forall ws | ws in requested :: ws in AllowedTargets(f, f.workspaces[sys.value].tenant, f.workspaces[sys.value].env))
      && (id in s.identityGrants ==> forall ws | ws in s.identityGrants[id] && ws !in requested :: !UsesIdentity(s, id, ws))
  {
    if sys.Some? && sys.value in f.workspaces {
      var current, targets := GrantsOf(s.identityGrants, id), FirstOccurrences(requested);
      FirstOccurrencesAreFirst(requested);
      assert forall ws :: ws in targets <==> ws in Elements(targets);
      assert forall ws :: ws in requested <==> ws in Elements(requested);
      forall ws ensures ws in Subtract(current, targets) <==> ws in current && ws !in requested {
        SubtractMember(current, targets, ws);
      }
    }
  }

  // -------------------------------------------------------------------- every run

  datatype Action =
    | Select(templateType: Uuid, selection: Selection)
    | Drop(templateType: Uuid)
    | ShareAdapter(sys: Option<Uuid>, adapter: Uuid, requested: seq<Uuid>)
    | ShareIdentity(sys: Option<Uuid>, adapter: Uuid, identity: Uuid, requested: seq<Uuid>)

  function Next(f: Fixed, s: State, act: Action): State {
    match act
    case Select(tt, sel) =>
      if Known(f, sel.workspace) && Validate(f, s, sel.workspace, sel.adapter, sel.identity) == None
      then s.(selections := s.selections[tt := sel]) else s
    case Drop(tt) => s.(selections := s.selections - {tt})
    case ShareAdapter(sys, a, requested) =>
      var r := ReplaceAdapter(f, s, sys, a, requested);
      if r.Ok? then r.value else s
    case ShareIdentity(sys, a, id, requested) =>
      var r := ReplaceIdentity(f, s, sys, a, id, requested);
      if r.Ok? then r.value else s
  }

  function Run(f: Fixed, s: State, acts: seq<Action>): State
    decreases |acts|
  {
    if acts == [] then s else Run(f, Next(f, s, acts[0]), acts[1..])
  }

  /** Every stored selection would still pass validation. */
  ghost predicate AllValid(f: Fixed, s: State) {
    forall tt | tt in s.selections :: var sel := s.selections[tt];
      Known(f, sel.workspace) && Validate(f, s, sel.workspace, sel.adapter, sel.identity) == None
  }

  /** Grants belong to shareable things of a system workspace, and target only
      ordinary workspaces of its tenant and environment, each once. */
  ghost predicate WellTargeted(f: Fixed, owner: Option<Uuid>, grants: seq<Uuid>) {
    && IsSystem(f, owner) && NoDuplicates(grants)
    && var o := f.workspaces[owner.value];
       forall ws | ws in grants :: ws in f.workspaces && f.workspaces[ws] == Workspace(o.tenant, o.env, false)
  }

  ghost predicate GrantsOk(f: Fixed, s: State) {
    && (forall a | a in s.adapterGrants ::
          a in f.adapters && f.adapters[a].adapterType == Gmail && WellTargeted(f, f.adapters[a].workspace, s.adapterGrants[a]))
    && (forall id | id in s.identityGrants ::
          && id in f.identities && f.identities[id].identityType == EmailIdentity && f.identities[id].adapter in f.adapters
          && UsesIdentityGrants(f.adapters[f.identities[id].adapter].adapterType)
          && WellTargeted(f, f.adapters[f.identities[id].adapter].workspace, s.identityGrants[id]))
  }

  ghost predicate Inv(f: Fixed, s: State) {
    AllValid(f, s) && GrantsOk(f, s)
  }

  lemma {:induction false} TargetsAreWell(f: Fixed, sys: Option<Uuid>, requested: seq<Uuid>)
    requires OneSystemEach(f.workspaces) && IsSystem(f, sys)
    requires Targets(f, f.workspaces[sys.value].tenant, f.workspaces[sys.value].env, requested).Ok?
    ensures WellTargeted(f, sys, FirstOccurrences(requested))
  {
    var o := f.workspaces[sys.value];
    FirstOccurrencesAreFirst(requested);
    AllTargetsAllowedIff(f, o.tenant, o.env);
    forall ws | ws in FirstOccurrences(requested)
      ensures ws in f.workspaces && f.workspaces[ws] == Workspace(o.tenant, o.env, false)
    {
      assert ws in Elements(requested);
      assert ws in Members(f.workspaces, o.tenant, o.env, false);
    }
  }

  lemma {:induction false} ReplaceAdapterKeepsGrants(f: Fixed, s: State, sys: Option<Uuid>, a: Uuid, requested: seq<Uuid>)
    requires OneSystemEach(f.workspaces) && GrantsOk(f, s) && ReplaceAdapter(f, s, sys, a, requested).Ok?
    ensures GrantsOk(f, ReplaceAdapter(f, s, sys, a, requested).value)
  {
    TargetsAreWell(f, sys, requested);
  }

  lemma {:induction false} ReplaceIdentityKeepsGrants(f: Fixed, s: State, sys: Option<Uuid>, a: Uuid, id: Uuid, requested: seq<Uuid>)
    requires OneSystemEach(f.workspaces) && GrantsOk(f, s) && ReplaceIdentity(f, s, sys, a, id, requested).Ok?
    ensures GrantsOk(f, ReplaceIdentity(f, s, sys, a, id, requested).value)
  {
    TargetsAreWell(f, sys, requested);
  }

  /** A valid selection stays valid as long as it keeps the grants it leans on. */
  lemma {:induction false} KeepsValid(f: Fixed, s: State, s': State, sel: Selection)
    requires Known(f, sel.workspace) && Validate(f, s, sel.workspace, sel.adapter, sel.identity) == None
    requires sel.workspace.Some? && sel.adapter.Some? && sel.workspace.value in GrantsOf(s.adapterGrants, sel.adapter.value) ==>
      sel.workspace.value in GrantsOf(s'.adapterGrants, sel.adapter.value)
    requires sel.workspace.Some? && sel.identity.Some? && sel.workspace.value in GrantsOf(s.identityGrants, sel.identity.value) ==>
      sel.workspace.value in GrantsOf(s'.identityGrants, sel.identity.value)
    ensures Validate(f, s', sel.workspace, sel.adapter, sel.identity) == None
  {
  }

  /** Replacing an adapter's grants invalidates no selection: one that leaned on a
      dropped grant would have been found in use. */
  lemma {:induction false} ReplaceAdapterKeepsValid(f: Fixed, s: State, sys: Option<Uuid>, a: Uuid, requested: seq<Uuid>)
    requires AllValid(f, s) && ReplaceAdapter(f, s, sys, a, requested).Ok?
    ensures AllValid(f, ReplaceAdapter(f, s, sys, a, requested).value)
  {
    var s' := ReplaceAdapter(f, s, sys, a, requested).value;
    var current, targets := GrantsOf(s.adapterGrants, a), GrantsOf(s'.adapterGrants, a);
    forall tt | tt in s.selections
      ensures var sel := s.selections[tt]; Validate(f, s', sel.workspace, sel.adapter, sel.identity) == None
    {
      var sel := s.selections[tt];
      if sel.adapter == Some(a) && sel.workspace.Some? {
        SubtractMember(current, targets, sel.workspace.value);
      }
      KeepsValid(f, s, s', sel);
    }
  }

  lemma {:induction false} ReplaceIdentityKeepsValid(f: Fixed, s: State, sys: Option<Uuid>, a: Uuid, id: Uuid, requested: seq<Uuid>)
    requires AllValid(f, s) && ReplaceIdentity(f, s, sys, a, id, requested).Ok?
    ensures AllValid(f, ReplaceIdentity(f, s, sys, a, id, requested).value)
  {
    var s' := ReplaceIdentity(f, s, sys, a, id, requested).value;
    var current, targets := GrantsOf(s.identityGrants, id), GrantsOf(s'.identityGrants, id);
    forall tt | tt in s.selections
      ensures var sel := s.selections[tt]; Validate(f, s', sel.workspace, sel.adapter, sel.identity) == None
    {
      var sel := s.selections[tt];
      if sel.identity == Some(id) && sel.workspace.Some? {
        SubtractMember(current, targets, sel.workspace.value);
      }
      KeepsValid(f, s, s', sel);
    }
  }

  lemma {:induction false} RunKeepsInv(f: Fixed, s: State, acts: seq<Action>)
    requires OneSystemEach(f.workspaces) && Inv(f, s)
    ensures Inv(f, Run(f, s, acts))
    decreases |acts|
  {
    if acts != [] {
      NextKeepsInv(f, s, acts[0]);
      RunKeepsInv(f, Next(f, s, acts[0]), acts[1..]);
    }
  }

  lemma {:induction false} SelectKeepsInv(f: Fixed, s: State, tt: Uuid, sel: Selection)
    requires Inv(f, s)
    ensures Inv(f, Next(f, s, Select(tt, sel)))
  {
    var s' := Next(f, s, Select(tt, sel));
    forall x | x in s'.selections
      ensures var y := s'.selections[x];
        Known(f, y.workspace) && Validate(f, s', y.workspace, y.adapter, y.identity) == None
    {
      if x in s.selections {
        KeepsValid(f, s, s', s.selections[x]);
      }
      if s' != s {
        KeepsValid(f, s, s', sel);
      }
    }
  }

  lemma {:induction false} DropKeepsInv(f: Fixed, s: State, tt: Uuid)
    requires Inv(f, s)
    ensures Inv(f, Next(f, s, Drop(tt)))
  {
    var s' := Next(f, s, Drop(tt));
    forall x | x in s'.selections
      ensures var y := s'.selections[x];
        Known(f, y.workspace) && Validate(f, s', y.workspace, y.adapter, y.identity) == None
    {
      KeepsValid(f, s, s', s.selections[x]);
    }
  }

  lemma {:induction false} NextKeepsInv(f: Fixed, s: State, act: Action)
    requires OneSystemEach(f.workspaces) && Inv(f, s)
    ensures Inv(f, Next(f, s, act))
  {
    match act
    case Select(tt, sel) => SelectKeepsInv(f, s, tt, sel);
    case Drop(tt) => DropKeepsInv(f, s, tt);
    case ShareAdapter(sys, a, requested) =>
      if ReplaceAdapter(f, s, sys, a, requested).Ok? {
        ReplaceAdapterKeepsValid(f, s, sys, a, requested);
        ReplaceAdapterKeepsGrants(f, s, sys, a, requested);
      }
    case ShareIdentity(sys, a, id, requested) =>
      if ReplaceIdentity(f, s, sys, a, id, requested).Ok? {
        ReplaceIdentityKeepsValid(f, s, sys, a, id, requested);
        ReplaceIdentityKeepsGrants(f, s, sys, a, id, requested);
      }
  }

  const NOTHING := State(map[], map[], map[])

  /** In every run: an ordinary workspace that uses a system workspace's Gmail
      adapter holds its grant, and one that uses an SES or SMTP adapter it does not
      own holds the grant of the email identity it uses. */
  lemma {:induction false} SharedUseIsGranted(f: Fixed, acts: seq<Action>, tt: Uuid)
    requires OneSystemEach(f.workspaces) && tt in Run(f, NOTHING, acts).selections
    requires var sel := Run(f, NOTHING, acts).selections[tt];
      && sel.workspace.Some? && sel.workspace.value in f.workspaces && !f.workspaces[sel.workspace.value].isSystem
      && sel.adapter.Some? && sel.adapter.value in f.adapters
      && f.adapters[sel.adapter.value].workspace.Some? && f.adapters[sel.adapter.value].workspace != sel.workspace
    ensures var s := Run(f, NOTHING, acts);
      var sel := s.selections[tt];
      var ws, a := sel.workspace.value, sel.adapter.value;
      if f.adapters[a].adapterType == Gmail then ws in GrantsOf(s.adapterGrants, a)
      else sel.identity.Some? && sel.identity.value in GrantedIdentities(f, s, a, ws)
  {
    RunKeepsInv(f, NOTHING, acts);
  }

  /** In every run, whoever uses a shared adapter is of its owner's tenant and environment. */
  lemma {:induction false} SharedUseStaysInEnvironment(f: Fixed, acts: seq<Action>, tt: Uuid)
    requires OneSystemEach(f.workspaces) && tt in Run(f, NOTHING, acts).selections
    requires var sel := Run(f, NOTHING, acts).selections[tt];
      && sel.workspace.Some? && sel.workspace.value in f.workspaces && !f.workspaces[sel.workspace.value].isSystem
      && sel.adapter.Some? && sel.adapter.value in f.adapters
      && f.adapters[sel.adapter.value].workspace.Some? && f.adapters[sel.adapter.value].workspace != sel.workspace
    ensures var sel := Run(f, NOTHING, acts).selections[tt];
      var owner := f.adapters[sel.adapter.value].workspace;
      && IsSystem(f, owner)
      && f.workspaces[sel.workspace.value] == Workspace(f.workspaces[owner.value].tenant, f.workspaces[owner.value].env, false)
  {
    RunKeepsInv(f, NOTHING, acts);
    SharedUseIsGranted(f, acts, tt);
  }

  /** In every run, grants are well targeted. */
  lemma {:induction false} GrantsStayInTenant(f: Fixed, acts: seq<Action>)
    requires OneSystemEach(f.workspaces)
    ensures GrantsOk(f, Run(f, NOTHING, acts))
  {
    RunKeepsInv(f, NOTHING, acts);
  }

  /** A successful Replace leaves exactly the requested ids, each once, touches no
      other grant, and dropped only workspaces that did not use the adapter. */
  lemma {:induction false} ReplaceGrantsExactly(f: Fixed, s: State, sys: Option<Uuid>, a: Uuid, requested: seq<Uuid>)
    requires ReplaceAdapter(f, s, sys, a, requested).Ok?
    ensures var s' := ReplaceAdapter(f, s, sys, a, requested).value;
      && Elements(GrantsOf(s'.adapterGrants, a)) == Elements(requested) && NoDuplicates(GrantsOf(s'.adapterGrants, a))
      && (forall b | b != a :: GrantsOf(s'.adapterGrants, b) == GrantsOf(s.adapterGrants, b))
      && s'.identityGrants == s.identityGrants && s'.selections == s.selections
      && forall ws | ws in GrantsOf(s.adapterGrants, a) && ws !in requested :: !AdapterInUse(s, a, [ws])
  {
    var s' := ReplaceAdapter(f, s, sys, a, requested).value;
    var current, targets := GrantsOf(s.adapterGrants, a), GrantsOf(s'.adapterGrants, a);
    FirstOccurrencesAreFirst(requested);
    forall ws | ws in current && ws !in requested ensures !AdapterInUse(s, a, [ws]) {
      SubtractMember(current, targets, ws);
      assert ws in Subtract(current, targets) by {
        assert ws !in Elements(requested);
        assert ws !in Elements(targets);
      }
    }
  }

  lemma {:induction false} ReplaceIdentityGrantsExactly(f: Fixed, s: State, sys: Option<Uuid>, a: Uuid, id: Uuid, requested: seq<Uuid>)
    requires ReplaceIdentity(f, s, sys, a, id, requested).Ok?
    ensures var s' := ReplaceIdentity(f, s, sys, a, id, requested).value;
      && Elements(GrantsOf(s'.identityGrants, id)) == Elements(requested) && NoDuplicates(GrantsOf(s'.identityGrants, id))
      && (forall b | b != id :: GrantsOf(s'.identityGrants, b) == GrantsOf(s.identityGrants, b))
      && s'.adapterGrants == s.adapterGrants && s'.selections == s.selections
      && forall ws | ws in GrantsOf(s.identityGrants, id) && ws !in requested :: !IdentityInUse(s, id, [ws])
  {
    var s' := ReplaceIdentity(f, s, sys, a, id, requested).value;
    var current, targets := GrantsOf(s.identityGrants, id), GrantsOf(s'.identityGrants, id);
    FirstOccurrencesAreFirst(requested);
    forall ws | ws in current && ws !in requested ensures !IdentityInUse(s, id, [ws]) {
      SubtractMember(current, targets, ws);
      assert ws in Subtract(current, targets) by {
        assert ws !in Elements(requested);
        assert ws !in Elements(targets);
      }
    }
  }

  // -------------------------------------------------------------- the code itself

  /** The first loop of validWorkspaceTargets. */
  method AllowedOnPage(dir: Directory, page: seq<Uuid>) returns (allowed: set<Uuid>)
    ensures allowed == Ordinary(dir, page)
  {
    allowed := {};
    for i := 0 to |page|
      invariant allowed == Ordinary(dir, page[..i])
    {
      if page[i] in dir && !dir[page[i]].isSystem {
        allowed := allowed + {page[i]};
      }
      assert page[..i + 1] == page[..i] + [page[i]];
    }
    assert page[..|page|] == page;
  }

  /** The second loop: duplicates are skipped, an id outside `allowed` is an error. */
  method DedupeAllowed(requested: seq<Uuid>, allowed: set<Uuid>) returns (r: Result<seq<Uuid>, Error>)
    ensures r == if Elements(requested) <= allowed then Ok(FirstOccurrences(requested)) else Err(Validation)
  {
    var result: seq<Uuid> := [];
    var seen: set<Uuid> := {};
    for i := 0 to |requested|
      invariant result == FirstOccurrences(requested[..i])
      invariant seen == Elements(requested[..i]) == Elements(result) && seen <= allowed
    {
      var id := requested[i];
      FirstOccurrencesNext(requested, i);
      if id in seen {
        continue;
      }
      if id !in allowed {
        assert id in Elements(requested);
        return Err(Validation);
      }
      seen := seen + {id};
      result := result + [id];
    }
    assert requested[..|requested|] == requested;
    return Ok(result);
  }

  method ValidWorkspaceTargets(f: Fixed, tenant: Uuid, env: Environment, requested: seq<Uuid>)
    returns (r: Result<seq<Uuid>, Error>)
    ensures r == Targets(f, tenant, env, requested)
  {
    if requested == [] {
      return Ok([]);
    }
    var (page, _) := ListByTenant(f.workspaces, tenant, env, None);
    var allowed := AllowedOnPage(f.workspaces, page);
    r := DedupeAllowed(requested, allowed);
  }

  /** subtractUUIDs. */
  method SubtractUuids(current: seq<Uuid>, desired: seq<Uuid>) returns (result: seq<Uuid>)
    ensures result == Subtract(current, desired)
  {
    var desiredSet := set id | id in desired;
    result := [];
    for i := 0 to |current|
      invariant result == Subtract(current[..i], desired)
    {
      assert current[..i + 1][..i] == current[..i];
      if current[i] in desiredSet {
        continue;
      }
      result := result + [current[i]];
    }
    assert current[..|current|] == current;
  }

  class AdapterAccessService {
    const f: Fixed
    var state: State

    constructor (f: Fixed)
      ensures this.f == f && state == NOTHING
    {
      this.f, state := f, NOTHING;
    }

    method ReplaceAdapterWorkspaceAccess(sys: Option<Uuid>, a: Uuid, requested: seq<Uuid>) returns (err: Option<Error>)
      modifies this
      ensures state == Next(f, old(state), ShareAdapter(sys, a, requested))
      ensures match ReplaceAdapter(f, old(state), sys, a, requested)
        case Ok(_) => err == None
        case Err(e) => err == Some(e)
    {
      if !IsSystem(f, sys) {
        return Some(Forbidden);
      }
      if a !in f.adapters {
        return Some(NotFound);
      }
      if f.adapters[a].workspace != sys || f.adapters[a].adapterType != Gmail {
        return Some(Validation);
      }
      var targets := ValidWorkspaceTargets(f, f.workspaces[sys.value].tenant, f.workspaces[sys.value].env, requested);
      if targets.Err? {
        return Some(targets.error);
      }
      var revoked := SubtractUuids(GrantsOf(state.adapterGrants, a), targets.value);
      if revoked != [] && AdapterInUse(state, a, revoked) {
        return Some(GrantInUse);
      }
      state := state.(adapterGrants := state.adapterGrants[a := targets.value]);
      return None;
    }

    method ReplaceIdentityWorkspaceAccess(sys: Option<Uuid>, a: Uuid, id: Uuid, requested: seq<Uuid>)
      returns (err: Option<Error>)
      modifies this
      ensures state == Next(f, old(state), ShareIdentity(sys, a, id, requested))
      ensures match ReplaceIdentity(f, old(state), sys, a, id, requested)
        case Ok(_) => err == None
        case Err(e) => err == Some(e)
    {
      if !IsSystem(f, sys) {
        return Some(Forbidden);
      }
      if a !in f.adapters {
        return Some(NotFound);
      }
      if f.adapters[a].workspace != sys || !UsesIdentityGrants(f.adapters[a].adapterType) {
        return Some(Validation);
      }
      if id !in f.identities {
        return Some(NotFound);
      }
      if f.identities[id].adapter != a || f.identities[id].identityType != EmailIdentity {
        return Some(Validation);
      }
      var targets := ValidWorkspaceTargets(f, f.workspaces[sys.value].tenant, f.workspaces[sys.value].env, requested);
      if targets.Err? {
        return Some(targets.error);
      }
      var revoked := SubtractUuids(GrantsOf(state.identityGrants, id), targets.value);
      if revoked != [] && IdentityInUse(state, id, revoked) {
        return Some(GrantInUse);
      }
      state := state.(identityGrants := state.identityGrants[id := targets.value]);
      return None;
    }
  }
}
