/** Vocabulary shared by the models: optional values, results, identifiers and
    counting, which count what the elements of a sequence contribute. */
module Common {

  datatype Option<+T> = None | Some(value: T) {
    function GetOr(default: T): T {
      match this
      case Some(v) => v
      case None => default
    }
  }

  datatype Result<+T, +E> = Ok(value: T) | Err(error: E)

  /** A uuid.UUID. Only equality and the order used by keyset pagination matter. */
  type Uuid = nat

  ghost predicate NoDuplicates<T>(s: seq<T>) {
    forall i, j | 0 <= i < j < |s| :: s[i] != s[j]
  }

  function Elements<T>(s: seq<T>): set<T> {
    set x | x in s
  }

  lemma {:induction false} ElementsOfAppend<T>(s: seq<T>, t: seq<T>)
    ensures Elements(s + t) == Elements(s) + Elements(t)
  {
  }

  /** How many elements of `s` satisfy `p`. */
  function Count<T>(s: seq<T>, p: T -> bool): nat {
    if |s| == 0 then 0 else Count(s[..|s| - 1], p) + if p(s[|s| - 1]) then 1 else 0
  }

  lemma {:induction false} CountAppend<T>(s: seq<T>, x: T, p: T -> bool)
    ensures Count(s + [x], p) == Count(s, p) + if p(x) then 1 else 0
  {
    assert (s + [x])[..|s|] == s;
  }

  /** Replacing one element exchanges its contribution and nothing else. */
  lemma {:induction false} CountUpdate<T>(s: seq<T>, i: nat, x: T, p: T -> bool)
    requires i < |s|
    ensures Count(s[i := x], p) + (if p(s[i]) then 1 else 0) == Count(s, p) + (if p(x) then 1 else 0)
  {
    var n := |s| - 1;
    if i == n {
      assert s[i := x][..n] == s[..n];
    } else {
      CountUpdate(s[..n], i, x, p);
      assert s[i := x][..n] == s[..n][i := x];
    }
  }

  lemma {:induction false} CountNone<T>(s: seq<T>, p: T -> bool)
    requires forall i | 0 <= i < |s| :: !p(s[i])
    ensures Count(s, p) == 0
  {
    if |s| != 0 {
      CountNone(s[..|s| - 1], p);
    }
  }

  /** Two distinct positions are counted separately. */
  lemma {:induction false} CountTwo<T>(s: seq<T>, i: nat, j: nat, p: T -> bool)
    requires i < j < |s| && p(s[i]) && p(s[j])
    ensures Count(s, p) >= 2
  {
    var n := |s| - 1;
    if j == n {
      CountOne(s[..n], i, p);
    } else {
      CountTwo(s[..n], i, j, p);
    }
  }

  lemma {:induction false} CountOne<T>(s: seq<T>, i: nat, p: T -> bool)
    requires i < |s| && p(s[i])
    ensures Count(s, p) >= 1
  {
    if i < |s| - 1 {
      CountOne(s[..|s| - 1], i, p);
    }
  }

  /** Everything is counted exactly when everything satisfies the predicate. */
  lemma {:induction false} CountAll<T>(s: seq<T>, p: T -> bool)
    ensures Count(s, p) <= |s|
    ensures Count(s, p) == |s| <==> forall i | 0 <= i < |s| :: p(s[i])
  {
    if |s| != 0 {
      var n := |s| - 1;
      CountAll(s[..n], p);
      assert forall i | 0 <= i < n :: s[..n][i] == s[i];
    }
  }

  /** Nothing is counted exactly when nothing satisfies the predicate. */
  lemma {:induction false} CountSome<T>(s: seq<T>, p: T -> bool)
    ensures Count(s, p) > 0 <==> exists i :: 0 <= i < |s| && p(s[i])
  {
    if forall i | 0 <= i < |s| :: !p(s[i]) {
      CountNone(s, p);
    } else {
      var i :| 0 <= i < |s| && p(s[i]);
      CountOne(s, i, p);
    }
  }
}
