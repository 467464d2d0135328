/** Workspaces of a tenant and their paginated listing: ListByTenant of
    internal/adapter/postgres/workspace_repo.go behind internal/port/store.go. */
module Workspaces {
  import opened Common

  datatype Environment = Prod | Test

  datatype Workspace = Workspace(tenant: Uuid, env: Environment, isSystem: bool)

  /** The workspaces that are not deleted. */
  type Directory = map<Uuid, Workspace>

  function Members(dir: Directory, tenant: Uuid, env: Environment, isSystem: bool): set<Uuid> {
    set id | id in dir && dir[id] == Workspace(tenant, env, isSystem)
  }

  function TenantMembers(dir: Directory, tenant: Uuid): set<Uuid> {
    set id | id in dir && dir[id].tenant == tenant
  }

  /** The exclusion constraint workspaces_one_system_per_tenant_environment. */
  ghost predicate OneSystemEach(dir: Directory) {
    forall a, b | a in dir && b in dir && dir[a].isSystem && dir[a] == dir[b] :: a == b
  }

  // ------------------------------------------------------------------ ordering

  lemma {:induction false} MaxExists(s: set<Uuid>)
    requires s != {}
    ensures exists m :: m in s && forall x | x in s :: x <= m
  {
    var x :| x in s;
    var rest := s - {x};
    if rest == {} {
      assert s == {x};
      assert x in s && forall y | y in s :: y <= x;
    } else {
      MaxExists(rest);
      var m :| m in rest && forall y | y in rest :: y <= m;
      var top := if m < x then x else m;
      assert top in s && forall y | y in s :: y <= top by {
        assert s == rest + {x};
      }
    }
  }

  function MaxOf(s: set<Uuid>): (m: Uuid)
    requires s != {}
    ensures m in s && forall x | x in s :: x <= m
  {
    MaxExists(s);
    var m :| m in s && forall x | x in s :: x <= m;
    m
  }

  /** `r` lists the elements of `s` once each, in descending order. */
  ghost predicate Lists(r: seq<Uuid>, s: set<Uuid>) {
    && |r| == |s| && Elements(r) == s
    && forall i, j | 0 <= i < j < |r| :: r[j] < r[i]
  }

  lemma {:induction false} ListsMaxFirst(m: Uuid, rest: seq<Uuid>, s: set<Uuid>)
    requires m in s && Lists(rest, s - {m}) && forall x | x in s :: x <= m
    ensures Lists([m] + rest, s)
  {
    ElementsOfAppend([m], rest);
    forall i | 0 <= i < |rest| ensures rest[i] < m {
      assert rest[i] in Elements(rest);
    }
  }

  /** ORDER BY id DESC. */
  function Descending(s: set<Uuid>): (r: seq<Uuid>)
    ensures Lists(r, s)
  {
    if s == {} then []
    else
      var m := MaxOf(s);
      ListsMaxFirst(m, Descending(s - {m}), s);
      [m] + Descending(s - {m})
  }

  // ----------------------------------------------------------------- pagination

  /** Callers ask for 1000 rows; ApplyPagination clamps that to maxLimit. */
  const MAX_LIMIT := 100

  function Below(s: set<Uuid>, after: Option<Uuid>): set<Uuid> {
    set id | id in s && (after.None? || id < after.value)
  }

  /** One page of the rows, and as cursor the id of its last row, if more follow. */
  function FirstPage(rows: seq<Uuid>): (seq<Uuid>, Option<Uuid>) {
    if |rows| > MAX_LIMIT then (rows[..MAX_LIMIT], Some(rows[MAX_LIMIT - 1])) else (rows, None)
  }

  /** WHERE id < cursor ORDER BY is_system DESC, id DESC. */
  function ListByTenant(dir: Directory, tenant: Uuid, env: Environment, after: Option<Uuid>): (seq<Uuid>, Option<Uuid>) {
    FirstPage(
      Descending(Below(Members(dir, tenant, env, true), after))
      + Descending(Below(Members(dir, tenant, env, false), after)))
  }

  lemma {:induction false} AtMostOneSystem(dir: Directory, tenant: Uuid, env: Environment, after: Option<Uuid>)
    requires OneSystemEach(dir)
    ensures |Below(Members(dir, tenant, env, true), after)| <= 1
  {
    var s := Below(Members(dir, tenant, env, true), after);
    if s != {} {
      var a :| a in s;
      assert s == {a};
    }
  }

  /** A prefix of a descending listing holds exactly what is no smaller than its end. */
  lemma {:induction false} PrefixOfListing(r: seq<Uuid>, s: set<Uuid>, k: nat)
    requires Lists(r, s) && k < |r|
    ensures Elements(r[..k + 1]) == s - Below(s, Some(r[k]))
  {
    var prefix := r[..k + 1];
    forall x ensures x in prefix <==> x in s && r[k] <= x {
      if x in s && r[k] <= x {
        assert x in Elements(r);
        var i :| 0 <= i < |r| && r[i] == x;
        assert prefix[i] == x;
      }
      if x in prefix {
        var i :| 0 <= i <= k && r[i] == x;
        assert x in Elements(r);
      }
    }
  }

  /** With more rows than fit, the page ends at the ordinary row o[k]. */
  lemma {:induction false} FullPage(s: seq<Uuid>, o: seq<Uuid>, systems: set<Uuid>, others: set<Uuid>, k: nat)
    requires Lists(s, systems) && Lists(o, others) && |s| + k + 1 == MAX_LIMIT && k + 1 < |o|
    ensures FirstPage(s + o) == (s + o[..k + 1], Some(o[k]))
    ensures Elements(s + o[..k + 1]) == systems + (others - Below(others, Some(o[k])))
    ensures o[k] in others && Below(others, Some(o[k])) != {}
  {
    assert (s + o)[..MAX_LIMIT] == s + o[..k + 1];
    ElementsOfAppend(s, o[..k + 1]);
    PrefixOfListing(o, others, k);
    assert o[k] in Elements(o) && o[k + 1] in Elements(o);
    assert o[k + 1] in Below(others, Some(o[k]));
  }

  lemma {:induction false} FirstPageIsComplete(s: seq<Uuid>, o: seq<Uuid>, systems: set<Uuid>, others: set<Uuid>)
    requires Lists(s, systems) && Lists(o, others) && |systems| <= 1
    ensures var (page, next) := FirstPage(s + o);
      && Elements(page) == systems + (if next.None? then others else others - Below(others, next))
      && (next.Some? <==> |systems| + |others| > MAX_LIMIT)
      && (next.Some? ==> next.value in others && Below(others, next) != {})
  {
    if |s + o| > MAX_LIMIT {
      FullPage(s, o, systems, others, MAX_LIMIT - 1 - |s|);
    } else {
      ElementsOfAppend(s, o);
    }
  }

  /** A page lists every workspace that the remaining pages will not: with one
      system workspace at most, the cursor is an ordinary one, and all ordinary
      workspaces between the old and the new cursor are on the page. */
  lemma {:induction false} PageIsComplete(dir: Directory, tenant: Uuid, env: Environment, after: Option<Uuid>)
    requires OneSystemEach(dir)
    ensures var (page, next) := ListByTenant(dir, tenant, env, after);
      var systems, others := Below(Members(dir, tenant, env, true), after), Below(Members(dir, tenant, env, false), after);
      && Elements(page) == systems + (if next.None? then others else others - Below(others, next))
      && (next.Some? <==> |systems| + |others| > MAX_LIMIT)
      && (next.Some? ==> next.value in others && Below(others, next) != {})
  {
    AtMostOneSystem(dir, tenant, env, after);
    var systems, others := Below(Members(dir, tenant, env, true), after), Below(Members(dir, tenant, env, false), after);
    FirstPageIsComplete(Descending(systems), Descending(others), systems, others);
  }
}
