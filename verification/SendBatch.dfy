/** The suppression table of a batch: internal/service/send_batch.go. A batch
    primes one table keyed by raw address for all its items, and must treat every
    item as Send would on its own. */
module SendingBatch {
  import opened Common
  import opened Suppression
  import opened SendPersistence
  import opened Sending

  // ------------------------------------------------------------ the primed table

  datatype SuppressionStatus = SuppressionStatus(suppressed: bool, reason: string)

  type Statuses = map<Address, SuppressionStatus>

  /** Go's map lookup: an absent address has the zero status. */
  function StatusOf(statuses: Statuses, a: Address): SuppressionStatus {
    if a in statuses then statuses[a] else SuppressionStatus(false, "")
  }

  /** The table covers exactly `covered`, and flags an address iff its own verdict does. */
  ghost predicate Primed(levels: Levels, covered: set<Address>, statuses: Statuses) {
    && statuses.Keys == covered
    && forall a | a in statuses :: statuses[a].suppressed == levels.Suppresses(a)
  }

  lemma {:induction false} PrimeOne(levels: Levels, base: set<Address>, input: seq<Address>, i: nat, statuses: Statuses, st: SuppressionStatus)
    requires i < |input| && Primed(levels, base + Elements(input[..i]), statuses)
    requires st.suppressed == levels.Suppresses(input[i])
    ensures Primed(levels, base + Elements(input[..i + 1]), statuses[input[i] := st])
  {
    assert input[..i + 1] == input[..i] + [input[i]];
    assert Elements(input[..i + 1]) == Elements(input[..i]) + {input[i]};
  }

  /** The first flattening loop, for one evaluation. */
  method MarkTo(levels: Levels, ghost covered: set<Address>, statuses: Statuses, input: seq<Address>, to: seq<Decision>)
    returns (statuses': Statuses)
    requires Primed(levels, covered, statuses)
    requires |to| == |input|
    requires forall i | 0 <= i < |to| :: to[i] == Decide(levels.canon, levels.table, levels.optOuts, input[i])
    ensures Primed(levels, covered + Elements(input), statuses')
  {
    statuses' := statuses;
    for i := 0 to |to|
      invariant Primed(levels, covered + Elements(input[..i]), statuses')
    {
      PrimeOne(levels, covered, input, i, statuses', SuppressionStatus(to[i].suppressed, to[i].reason));
      statuses' := statuses'[to[i].address := SuppressionStatus(to[i].suppressed, to[i].reason)];
    }
    assert input[..|input|] == input;
  }

  /** The second loop, for one CC or BCC list: what the evaluator filtered out is
      suppressed, and what it kept is not, unless a status is there already. */
  method MarkCopies(levels: Levels, ghost covered: set<Address>, statuses: Statuses, input: seq<Address>, kept: seq<Address>)
    returns (statuses': Statuses)
    requires Primed(levels, covered, statuses)
    requires kept == Kept(levels.canon, levels.table, levels.optOuts, input)
    ensures Primed(levels, covered + Elements(input), statuses')
  {
    var keptSet := set a | a in kept;
    statuses' := statuses;
    for i := 0 to |input|
      invariant Primed(levels, covered + Elements(input[..i]), statuses')
    {
      var a := input[i];
      KeptMember(levels.canon, levels.table, levels.optOuts, input, a);
      if a !in keptSet {
        PrimeOne(levels, covered, input, i, statuses', SuppressionStatus(true, "suppressed"));
        statuses' := statuses'[a := SuppressionStatus(true, "suppressed")];
      } else if a !in statuses' {
        PrimeOne(levels, covered, input, i, statuses', SuppressionStatus(false, ""));
        statuses' := statuses'[a := SuppressionStatus(false, "")];
      } else {
        PrimeOne(levels, covered, input, i, statuses', statuses'[a]);
        assert statuses'[a := statuses'[a]] == statuses';
      }
    }
    assert input[..|input|] == input;
  }

  datatype Item = Item(to: Address, cc: seq<Address>, bcc: seq<Address>, locale: Option<string>)

  function InputOf(item: Item): BatchInput {
    BatchInput([item.to], item.cc, item.bcc)
  }

  method EffectiveInputs(ws: Workspace, tt: TemplateType, normalize: Normalizer, items: seq<Item>)
    returns (r: Result<seq<BatchInput>, string>)
    ensures r.Err? <==> exists i :: 0 <= i < |items| && ApplyTestRecipientPolicy(ws, tt, normalize, InputOf(items[i])).Err?
    ensures r.Ok? ==>
      && |r.value| == |items|
      && forall i | 0 <= i < |items| :: ApplyTestRecipientPolicy(ws, tt, normalize, InputOf(items[i])) == Ok(r.value[i])
  {
    var inputs := [];
    for i := 0 to |items|
      invariant |inputs| == i
      invariant forall j | 0 <= j < i :: ApplyTestRecipientPolicy(ws, tt, normalize, InputOf(items[j])) == Ok(inputs[j])
    {
      var effective := ApplyTestRecipientPolicy(ws, tt, normalize, InputOf(items[i]));
      if effective.Err? {
        return Err(effective.error);
      }
      inputs := inputs + [effective.value];
    }
    return Ok(inputs);
  }

  function AllTo(inputs: seq<BatchInput>): seq<Address> {
    if inputs == [] then [] else AllTo(inputs[..|inputs| - 1]) + inputs[|inputs| - 1].to
  }

  function AllCopies(inputs: seq<BatchInput>): seq<Address> {
    if inputs == [] then []
    else AllCopies(inputs[..|inputs| - 1]) + inputs[|inputs| - 1].cc + inputs[|inputs| - 1].bcc
  }

  lemma {:induction false} ToAndCopiesAreAll(inputs: seq<BatchInput>)
    ensures Elements(AllTo(inputs)) + Elements(AllCopies(inputs)) == Elements(AllRecipients(inputs))
  {
    if inputs != [] {
      var front, last := inputs[..|inputs| - 1], inputs[|inputs| - 1];
      ToAndCopiesAreAll(front);
      ElementsOfAppend(AllTo(front), last.to);
      ElementsOfAppend(AllCopies(front), last.cc);
      ElementsOfAppend(AllCopies(front) + last.cc, last.bcc);
      ElementsOfAppend(AllRecipients(front), Recipients(last));
      ElementsOfAppend(last.to + last.cc, last.bcc);
      ElementsOfAppend(last.to, last.cc);
    }
  }

  lemma {:induction false} CopiesExtend(inputs: seq<BatchInput>, i: nat)
    requires i < |inputs|
    ensures Elements(AllCopies(inputs[..i + 1]))
      == Elements(AllCopies(inputs[..i])) + Elements(inputs[i].cc) + Elements(inputs[i].bcc)
  {
    assert inputs[..i + 1][..i] == inputs[..i];
    ElementsOfAppend(AllCopies(inputs[..i]), inputs[i].cc);
    ElementsOfAppend(AllCopies(inputs[..i]) + inputs[i].cc, inputs[i].bcc);
  }

  ghost predicate Judges(levels: Levels, inputs: seq<BatchInput>, vs: seq<Verdict>) {
    && |vs| == |inputs|
    && forall k | 0 <= k < |vs| :: vs[k] == Evaluated(levels.canon, levels.table, levels.optOuts, inputs[k])
  }

  method FlattenTo(levels: Levels, inputs: seq<BatchInput>, vs: seq<Verdict>) returns (statuses: Statuses)
    requires Judges(levels, inputs, vs)
    ensures Primed(levels, Elements(AllTo(inputs)), statuses)
  {
    statuses := map[];
    for i := 0 to |inputs|
      invariant Primed(levels, Elements(AllTo(inputs[..i])), statuses)
    {
      statuses := MarkTo(levels, Elements(AllTo(inputs[..i])), statuses, inputs[i].to, vs[i].to);
      assert inputs[..i + 1][..i] == inputs[..i];
      ElementsOfAppend(AllTo(inputs[..i]), inputs[i].to);
    }
    assert inputs[..|inputs|] == inputs;
  }

  method FlattenCopies(levels: Levels, inputs: seq<BatchInput>, vs: seq<Verdict>, statuses: Statuses)
    returns (statuses': Statuses)
    requires Judges(levels, inputs, vs) && Primed(levels, Elements(AllTo(inputs)), statuses)
    ensures Primed(levels, Elements(AllRecipients(inputs)), statuses')
  {
    ghost var base := Elements(AllTo(inputs));
    statuses' := statuses;
    for i := 0 to |inputs|
      invariant Primed(levels, base + Elements(AllCopies(inputs[..i])), statuses')
    {
      ghost var before := base + Elements(AllCopies(inputs[..i]));
      statuses' := MarkCopies(levels, before, statuses', inputs[i].cc, vs[i].cc);
      statuses' := MarkCopies(levels, before + Elements(inputs[i].cc), statuses', inputs[i].bcc, vs[i].bcc);
      CopiesExtend(inputs, i);
      assert base + Elements(AllCopies(inputs[..i + 1])) == before + Elements(inputs[i].cc) + Elements(inputs[i].bcc);
    }
    assert inputs[..|inputs|] == inputs;
    ToAndCopiesAreAll(inputs);
  }

  lemma {:induction false} EveryInputIsCovered(inputs: seq<BatchInput>)
    ensures forall k | 0 <= k < |inputs| :: Elements(Recipients(inputs[k])) <= Elements(AllRecipients(inputs))
  {
    if inputs != [] {
      var n := |inputs| - 1;
      EveryInputIsCovered(inputs[..n]);
      assert forall k | 0 <= k < n :: inputs[..n][k] == inputs[k];
      ElementsOfAppend(AllRecipients(inputs[..n]), Recipients(inputs[n]));
    }
  }

  /** primeSendBatchSuppressionStatuses, after the policy: one evaluation of all
      inputs, flattened by raw address. */
  method PrimeStatuses(evaluator: SuppressionBatchEvaluator, inputs: seq<BatchInput>, storeOk: bool, ttsOk: bool)
    returns (r: Result<Statuses, string>)
    modifies evaluator.Frame()
    ensures r.Ok? <==> storeOk && (evaluator.tts != null ==> ttsOk)
    ensures r.Ok? ==> Primed(LevelsOf(evaluator), Elements(AllRecipients(inputs)), r.value)
  {
    var results, _, _ := evaluator.EvaluateManyForType(inputs, storeOk, ttsOk);
    if results.Err? {
      return Err(results.error);
    }
    var vs := [];
    for i := 0 to |results.value|
      invariant |vs| == i && forall k | 0 <= k < i :: vs[k] == results.value[k].Contents()
    {
      vs := vs + [results.value[i].Contents()];
    }
    var statuses := FlattenTo(LevelsOf(evaluator), inputs, vs);
    statuses := FlattenCopies(LevelsOf(evaluator), inputs, vs, statuses);
    return Ok(statuses);
  }

  // --------------------------------------------------------- batch refines single

  /** filterSuppressedWithStatuses. */
  method FilterSuppressedWithStatuses(addrs: seq<Address>, statuses: Statuses) returns (result: seq<Address>)
    ensures result == Unflagged(addrs, statuses)
  {
    result := [];
    for i := 0 to |addrs|
      invariant result == Unflagged(addrs[..i], statuses)
    {
      assert addrs[..i + 1][..i] == addrs[..i];
      if !StatusOf(statuses, addrs[i]).suppressed {
        result := result + [addrs[i]];
      }
    }
    assert addrs[..|addrs|] == addrs;
  }

  function Unflagged(addrs: seq<Address>, statuses: Statuses): seq<Address> {
    if addrs == [] then []
    else
      var last := addrs[|addrs| - 1];
      Unflagged(addrs[..|addrs| - 1], statuses) + if StatusOf(statuses, last).suppressed then [] else [last]
  }

  /** What the batch does with the effective recipients of one item. */
  function FromStatuses(to: seq<Address>, statuses: Statuses): seq<Decision> {
    seq(|to|, i requires 0 <= i < |to| =>
      Decision(to[i], StatusOf(statuses, to[i]).suppressed, StatusOf(statuses, to[i]).reason))
  }

  /** The table answers rightly for an address exactly when it covers the address
      or there is nothing to suppress: an unprimed suppressed address slips through. */
  lemma {:induction false} TableIsRightIff(levels: Levels, covered: set<Address>, statuses: Statuses, a: Address)
    requires Primed(levels, covered, statuses)
    ensures StatusOf(statuses, a).suppressed == levels.Suppresses(a) <==> a in covered || !levels.Suppresses(a)
  {
  }

  lemma {:induction false} UnflaggedIsKept(levels: Levels, covered: set<Address>, statuses: Statuses, addrs: seq<Address>)
    requires Primed(levels, covered, statuses) && Elements(addrs) <= covered
    ensures Unflagged(addrs, statuses) == Kept(levels.canon, levels.table, levels.optOuts, addrs)
  {
    if addrs != [] {
      var front, last := addrs[..|addrs| - 1], addrs[|addrs| - 1];
      assert addrs == front + [last];
      ElementsOfAppend(front, [last]);
      assert last in Elements(addrs);
      UnflaggedIsKept(levels, covered, statuses, front);
    }
  }

  /** Same recipients, same verdicts; reasons may differ. */
  ghost predicate SameVerdicts(a: seq<Decision>, b: seq<Decision>) {
    && |a| == |b|
    && forall i | 0 <= i < |a| :: a[i].address == b[i].address && a[i].suppressed == b[i].suppressed
  }

  function WithoutReason(e: EmailEvent): EmailEvent {
    if e.SuppressedEvent? then e.(reason := "") else e
  }

  function WithoutReasons(db: Db): Db {
    db.(events := seq(|db.events|, i requires 0 <= i < |db.events| => WithoutReason(db.events[i])))
  }

  /** Up to the reasons noted in suppression events, verdicts alone decide a send. */
  lemma {:induction false} VerdictsDecide(
      db: Db, db': Db, env: Envelope, a: seq<Decision>, b: seq<Decision>, chance: nat -> Chance)
    requires WithoutReasons(db) == WithoutReasons(db') && SameVerdicts(a, b)
    ensures var (x, y) := (SendAll(db, env, a, chance), SendAll(db', env, b, chance));
      x.1 == y.1 && WithoutReasons(x.0) == WithoutReasons(y.0)
  {
    if a != [] {
      var n := |a| - 1;
      VerdictsDecide(db, db', env, a[..n], b[..n], chance);
      TurnsAgree(SendAll(db, env, a[..n], chance).0, SendAll(db', env, b[..n], chance).0, env, a[n], b[n], chance(n));
    }
  }

  lemma {:induction false} TurnsAgree(db: Db, db': Db, env: Envelope, a: Decision, b: Decision, c: Chance)
    requires WithoutReasons(db) == WithoutReasons(db') && SameVerdicts([a], [b])
    ensures SendOne(db, env, a, c).1 == SendOne(db', env, b, c).1
    ensures WithoutReasons(SendOne(db, env, a, c).0) == WithoutReasons(SendOne(db', env, b, c).0)
  {
    assert [a][0].address == [b][0].address && [a][0].suppressed == [b][0].suppressed;
    assert db.emails == db'.emails && db.jobs == db'.jobs;
    assert |WithoutReasons(db).events| == |WithoutReasons(db').events|;
    var x, y := SendOne(db, env, a, c).0, SendOne(db', env, b, c).0;
    forall i | 0 <= i < |x.events| ensures WithoutReason(x.events[i]) == WithoutReason(y.events[i]) {
      if i < |db.events| {
        assert WithoutReasons(db).events[i] == WithoutReasons(db').events[i];
      }
    }
  }

  /** What the batch does with it, from the primed table. */
  function SendFromTable(statuses: Statuses, db: Db, input: BatchInput, content: Content, chance: nat -> Chance)
    : (Db, seq<TrackingEntry>)
  {
    var env := Envelope(Unflagged(input.cc, statuses), Unflagged(input.bcc, statuses), content);
    SendAll(db, env, FromStatuses(input.to, statuses), chance)
  }

  /** Batch refines single: for every message whose recipients were primed, from the
      same store with the same luck, the batch reports the same tracking entries and
      leaves the same store as Send, up to suppression reasons; CC and BCC included,
      wherever else in the batch an address occurs. */
  lemma {:induction false} BatchRefinesSingle(
      levels: Levels, covered: set<Address>, statuses: Statuses, db: Db, input: BatchInput, content: Content,
      chance: nat -> Chance)
    requires Primed(levels, covered, statuses) && Elements(Recipients(input)) <= covered
    ensures var (batch, single) :=
        (SendFromTable(statuses, db, input, content, chance), SendSingly(levels, db, input, content, chance));
      batch.1 == single.1 && WithoutReasons(batch.0) == WithoutReasons(single.0)
  {
    ElementsOfAppend(input.to + input.cc, input.bcc);
    ElementsOfAppend(input.to, input.cc);
    UnflaggedIsKept(levels, covered, statuses, input.cc);
    UnflaggedIsKept(levels, covered, statuses, input.bcc);
    var v := Evaluated(levels.canon, levels.table, levels.optOuts, input);
    assert forall i | 0 <= i < |input.to| :: input.to[i] in Elements(input.to);
    VerdictsDecide(db, db, Envelope(v.cc, v.bcc, content), FromStatuses(input.to, statuses), v.to, chance);
  }
}
