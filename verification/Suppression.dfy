/** Which recipients a send may reach: internal/service/send_suppression.go.

    `canon` is domain.CanonicalRecipientAddress; nothing is assumed of it. */
module Suppression {
  import opened Common

  /** A recipient address, raw or canonical. */
  datatype Address = Address(text: string)

  const EMPTY := Address("")

  datatype Decision = Decision(address: Address, suppressed: bool, reason: string)

  datatype BatchInput = BatchInput(to: seq<Address>, cc: seq<Address>, bcc: seq<Address>)

  /** The value of an Evaluation object. */
  datatype Verdict = Verdict(to: seq<Decision>, cc: seq<Address>, bcc: seq<Address>)

  // ------------------------------------------------------- pointwise specification

  /** The three levels for one address: the workspace/global table, then the
      opt-outs of the template type. An address without canonical form matches nothing. */
  function Decide(canon: Address -> Address, table: map<Address, string>, optOuts: set<Address>, addr: Address): Decision {
    var c := canon(addr);
    if c != EMPTY && c in table then Decision(addr, true, table[c])
    else if c != EMPTY && c in optOuts then Decision(addr, true, "type_optout")
    else Decision(addr, false, "")
  }

  /** The unsuppressed subsequence. */
  function Kept(canon: Address -> Address, table: map<Address, string>, optOuts: set<Address>, addrs: seq<Address>)
    : seq<Address>
  {
    if addrs == [] then []
    else
      var last := addrs[|addrs| - 1];
      Kept(canon, table, optOuts, addrs[..|addrs| - 1])
      + if Decide(canon, table, optOuts, last).suppressed then [] else [last]
  }

  lemma {:induction false} KeptMember(
      canon: Address -> Address, table: map<Address, string>, optOuts: set<Address>, addrs: seq<Address>, a: Address)
    ensures a in Kept(canon, table, optOuts, addrs) <==> a in addrs && !Decide(canon, table, optOuts, a).suppressed
  {
    if addrs != [] {
      KeptMember(canon, table, optOuts, addrs[..|addrs| - 1], a);
      assert addrs == addrs[..|addrs| - 1] + [addrs[|addrs| - 1]];
    }
  }

  /** To keeps order and multiplicity; CC and BCC keep the allowed subsequence. */
  function Evaluated(canon: Address -> Address, table: map<Address, string>, optOuts: set<Address>, input: BatchInput): Verdict {
    Verdict(
      seq(|input.to|, i requires 0 <= i < |input.to| => Decide(canon, table, optOuts, input.to[i])),
      Kept(canon, table, optOuts, input.cc),
      Kept(canon, table, optOuts, input.bcc))
  }

  /** The verdict on a To recipient, written out: it names the recipient, and gives the
      first reason there is against its canonical form. */
  lemma {:induction false} VerdictMeans(
      canon: Address -> Address, table: map<Address, string>, optOuts: set<Address>, input: BatchInput, i: nat)
    requires i < |input.to|
    ensures var v := Evaluated(canon, table, optOuts, input);
      var d, c := v.to[i], canon(input.to[i]);
      && |v.to| == |input.to| && d.address == input.to[i]
      && (d.suppressed <==> c != Address("") && (c in table || c in optOuts))
      && d.reason == (if !d.suppressed then "" else if c in table then table[c] else "type_optout")
  {
  }

  lemma {:induction false} KeptAppends(
      canon: Address -> Address, table: map<Address, string>, optOuts: set<Address>, a: seq<Address>, b: seq<Address>)
    ensures Kept(canon, table, optOuts, a + b) == Kept(canon, table, optOuts, a) + Kept(canon, table, optOuts, b)
  {
    if b == [] {
      assert a + b == a;
    } else {
      var front, last := b[..|b| - 1], b[|b| - 1];
      KeptAppends(canon, table, optOuts, a, front);
      assert (a + b)[..|a + b| - 1] == a + front && (a + b)[|a + b| - 1] == last;
      var one := if Decide(canon, table, optOuts, last).suppressed then [] else [last];
      assert Kept(canon, table, optOuts, b) == Kept(canon, table, optOuts, front) + one;
      assert Kept(canon, table, optOuts, a + b) == Kept(canon, table, optOuts, a + front) + one;
    }
  }

  /** The kept copies are determined address by address and in order: nothing of an
      empty list, an address alone unless something is against it, and of two lists
      what is kept of the first and then of the second. */
  lemma {:induction false} KeptMeans(
      canon: Address -> Address, table: map<Address, string>, optOuts: set<Address>, a: seq<Address>, b: seq<Address>, x: Address)
    ensures Kept(canon, table, optOuts, []) == []
    ensures Kept(canon, table, optOuts, [x])
      == if canon(x) != Address("") && (canon(x) in table || canon(x) in optOuts) then [] else [x]
    ensures Kept(canon, table, optOuts, a + b) == Kept(canon, table, optOuts, a) + Kept(canon, table, optOuts, b)
  {
    KeptAppends(canon, table, optOuts, a, b);
    assert [x][..0] == [];
  }

  /** The documented reach of the type level: bulk types only. */
  function DocumentedOptOuts(bulk: bool, optOuts: set<Address>): set<Address> {
    if bulk then optOuts else {}
  }

  /** Nothing but a type opt-out stands against the address. */
  predicate OnlyOptedOut(canon: Address -> Address, table: map<Address, string>, optOuts: set<Address>, a: Address) {
    canon(a) != EMPTY && canon(a) !in table && canon(a) in optOuts
  }

  lemma {:induction false} OptOutsKeepIff(
      canon: Address -> Address, table: map<Address, string>, optOuts: set<Address>, addrs: seq<Address>)
    ensures Kept(canon, table, optOuts, addrs) == Kept(canon, table, {}, addrs) <==>
      forall a | a in addrs :: !OnlyOptedOut(canon, table, optOuts, a)
  {
    if forall a | a in addrs :: !OnlyOptedOut(canon, table, optOuts, a) {
      if addrs != [] {
        var front, last := addrs[..|addrs| - 1], addrs[|addrs| - 1];
        OptOutsKeepIff(canon, table, optOuts, front);
        assert last in addrs && !OnlyOptedOut(canon, table, optOuts, last);
      }
    } else {
      var a :| a in addrs && OnlyOptedOut(canon, table, optOuts, a);
      KeptMember(canon, table, optOuts, addrs, a);
      KeptMember(canon, table, {}, addrs, a);
    }
  }

  lemma {:induction false} OptOutsDecideIff(canon: Address -> Address, table: map<Address, string>, optOuts: set<Address>, to: seq<Address>)
    ensures (forall i | 0 <= i < |to| :: Decide(canon, table, optOuts, to[i]) == Decide(canon, table, {}, to[i])) <==>
      forall a | a in to :: !OnlyOptedOut(canon, table, optOuts, a)
  {
    forall i | 0 <= i < |to|
      ensures Decide(canon, table, optOuts, to[i]) == Decide(canon, table, {}, to[i]) <==>
        !OnlyOptedOut(canon, table, optOuts, to[i])
    {
    }
  }

  /** docs/EMAIL_FLOWS.md exempts transactional types from the type level. The code
      has no such case, so a message is judged as documented exactly when its type
      is bulk or a type opt-out is the only thing against none of its recipients. */
  lemma {:induction false} OptOutsAreBulkOnlyIff(
      canon: Address -> Address, table: map<Address, string>, optOuts: set<Address>, bulk: bool, input: BatchInput)
    ensures Evaluated(canon, table, optOuts, input) == Evaluated(canon, table, DocumentedOptOuts(bulk, optOuts), input) <==>
      bulk || forall a | a in Recipients(input) :: !OnlyOptedOut(canon, table, optOuts, a)
  {
    if !bulk {
      var v, w := Evaluated(canon, table, optOuts, input), Evaluated(canon, table, {}, input);
      OptOutsDecideIff(canon, table, optOuts, input.to);
      assert v.to == w.to <==> forall a | a in input.to :: !OnlyOptedOut(canon, table, optOuts, a) by {
        assert forall i | 0 <= i < |input.to| ::
          v.to[i] == Decide(canon, table, optOuts, input.to[i]) && w.to[i] == Decide(canon, table, {}, input.to[i]);
      }
      OptOutsKeepIff(canon, table, optOuts, input.cc);
      OptOutsKeepIff(canon, table, optOuts, input.bcc);
      assert forall a :: a in Recipients(input) <==> a in input.to || a in input.cc || a in input.bcc;
    }
  }

  /** A password reset to somebody who opted out of its (transactional) type. */
  lemma {:induction false} TransactionalSendIsBlocked(canon: Address -> Address)
    requires canon(Address("ann@example.com")) == Address("ann@example.com")
    ensures var ann := Address("ann@example.com");
      var input := BatchInput([ann], [], []);
      && Evaluated(canon, map[], {ann}, input).to == [Decision(ann, true, "type_optout")]
      && Evaluated(canon, map[], DocumentedOptOuts(false, {ann}), input).to == [Decision(ann, false, "")]
  {
  }

  // ----------------------------------------------------------------------- lookups

  function CanonicalsOf(canon: Address -> Address, addrs: seq<Address>): set<Address> {
    set a | a in addrs && canon(a) != EMPTY :: canon(a)
  }

  function Recipients(input: BatchInput): seq<Address> {
    input.to + input.cc + input.bcc
  }

  function AllRecipients(inputs: seq<BatchInput>): seq<Address> {
    if inputs == [] then [] else AllRecipients(inputs[..|inputs| - 1]) + Recipients(inputs[|inputs| - 1])
  }

  /** A query asks for each of `wanted` once, and for nothing else. */
  ghost predicate AsksExactly(query: seq<Address>, wanted: set<Address>) {
    NoDuplicates(query) && Elements(query) == wanted && EMPTY !in query
  }

  /** Growing a query: `seen` mirrors `dst`. */
  method AddUniqueCanonical(canon: Address -> Address, dst: seq<Address>, seen: set<Address>, addr: Address)
    returns (dst': seq<Address>, seen': set<Address>)
    requires AsksExactly(dst, seen)
    ensures AsksExactly(dst', seen') && seen' == seen + CanonicalsOf(canon, [addr])
  {
    var c := canon(addr);
    dst', seen' := dst, seen;
    if c != EMPTY && c !in seen {
      assert c !in Elements(dst);
      ElementsOfAppend(dst, [c]);
      dst', seen' := dst + [c], seen + {c};
    }
  }

  method AddAllCanonical(canon: Address -> Address, dst: seq<Address>, seen: set<Address>, addrs: seq<Address>)
    returns (dst': seq<Address>, seen': set<Address>)
    requires AsksExactly(dst, seen)
    ensures AsksExactly(dst', seen') && seen' == seen + CanonicalsOf(canon, addrs)
  {
    dst', seen' := dst, seen;
    for i := 0 to |addrs|
      invariant AsksExactly(dst', seen') && seen' == seen + CanonicalsOf(canon, addrs[..i])
    {
      dst', seen' := AddUniqueCanonical(canon, dst', seen', addrs[i]);
      assert addrs[..i + 1] == addrs[..i] + [addrs[i]];
    }
    assert addrs[..|addrs|] == addrs;
  }

  method AppendUniqueCanonicalRecipients(
      canon: Address -> Address, dst: seq<Address>, seen: set<Address>, groups: seq<seq<Address>>)
    returns (dst': seq<Address>, seen': set<Address>)
    requires AsksExactly(dst, seen) && |groups| == 3
    ensures AsksExactly(dst', seen') && seen' == seen + CanonicalsOf(canon, groups[0] + groups[1] + groups[2])
  {
    dst', seen' := AddAllCanonical(canon, dst, seen, groups[0]);
    dst', seen' := AddAllCanonical(canon, dst', seen', groups[1]);
    dst', seen' := AddAllCanonical(canon, dst', seen', groups[2]);
  }

  // ------------------------------------------------------------------------ stores

  /** CheckBatch: of the asked addresses, the suppressed ones with their reasons. */
  class SuppressionStore {
    const table: map<Address, string>
    var queries: seq<seq<Address>>

    constructor (table: map<Address, string>)
      ensures this.table == table && queries == []
    {
      this.table, queries := table, [];
    }

    method CheckBatch(emails: seq<Address>, reachable: bool) returns (r: Result<map<Address, string>, string>)
      modifies this`queries
      ensures queries == old(queries) + [emails]
      ensures r == if reachable then Ok(map a | a in table && a in emails :: table[a]) else Err("suppression store")
    {
      queries := queries + [emails];
      r := if reachable then Ok(map a | a in table && a in emails :: table[a]) else Err("suppression store");
    }
  }

  /** BatchCheckOptOut: of the asked addresses, those opted out of the template type. */
  class OptOutStore {
    const optedOut: set<Address>
    var queries: seq<seq<Address>>

    constructor (optedOut: set<Address>)
      ensures this.optedOut == optedOut && queries == []
    {
      this.optedOut, queries := optedOut, [];
    }

    method BatchCheckOptOut(emails: seq<Address>, reachable: bool) returns (r: Result<set<Address>, string>)
      modifies this`queries
      ensures queries == old(queries) + [emails]
      ensures r == if reachable then Ok(optedOut * Elements(emails)) else Err("opt-out store")
    {
      queries := queries + [emails];
      r := if reachable then Ok(set a | a in optedOut && a in emails) else Err("opt-out store");
      assert reachable ==> r.value == optedOut * Elements(emails);
    }
  }

  // ------------------------------------------------------------------- evaluations

  function UnsuppressedTo(to: seq<Decision>): seq<Address> {
    if to == [] then []
    else
      var last := to[|to| - 1];
      UnsuppressedTo(to[..|to| - 1]) + if last.suppressed then [] else [last.address]
  }

  /** What stays reachable in an evaluation, and so is worth asking about. */
  function Remaining(v: Verdict): seq<Address> {
    UnsuppressedTo(v.to) + v.cc + v.bcc
  }

  function AllRemaining(vs: seq<Verdict>): seq<Address> {
    if vs == [] then [] else AllRemaining(vs[..|vs| - 1]) + Remaining(vs[|vs| - 1])
  }

  function OptDecision(canon: Address -> Address, optOuts: set<Address>, d: Decision): Decision {
    if !d.suppressed && canon(d.address) in optOuts then d.(suppressed := true, reason := "type_optout") else d
  }

  function WithoutOptOuts(canon: Address -> Address, optOuts: set<Address>, addrs: seq<Address>): seq<Address> {
    if addrs == [] then []
    else
      var last := addrs[|addrs| - 1];
      WithoutOptOuts(canon, optOuts, addrs[..|addrs| - 1]) + if canon(last) in optOuts then [] else [last]
  }

  function WithOptOuts(canon: Address -> Address, optOuts: set<Address>, v: Verdict): Verdict {
    Verdict(
      seq(|v.to|, i requires 0 <= i < |v.to| => OptDecision(canon, optOuts, v.to[i])),
      WithoutOptOuts(canon, optOuts, v.cc),
      WithoutOptOuts(canon, optOuts, v.bcc))
  }

  method FilterTypeOptOuts(canon: Address -> Address, addrs: seq<Address>, optOuts: set<Address>) returns (out: seq<Address>)
    ensures out == WithoutOptOuts(canon, optOuts, addrs)
  {
    out := [];
    for i := 0 to |addrs|
      invariant out == WithoutOptOuts(canon, optOuts, addrs[..i])
    {
      assert addrs[..i + 1][..i] == addrs[..i];
      if canon(addrs[i]) in optOuts {
        continue;
      }
      out := out + [addrs[i]];
    }
    assert addrs[..|addrs|] == addrs;
  }

  /** The unsuppressed part of a CC or BCC list, against the answer of CheckBatch. */
  method KeepUnsuppressed(canon: Address -> Address, addrs: seq<Address>, suppressedByEmail: map<Address, string>)
    returns (out: seq<Address>)
    requires EMPTY !in suppressedByEmail
    ensures out == Kept(canon, suppressedByEmail, {}, addrs)
  {
    out := [];
    for i := 0 to |addrs|
      invariant out == Kept(canon, suppressedByEmail, {}, addrs[..i])
    {
      assert addrs[..i + 1][..i] == addrs[..i];
      if canon(addrs[i]) !in suppressedByEmail {
        out := out + [addrs[i]];
      }
    }
    assert addrs[..|addrs|] == addrs;
  }

  class Evaluation {
    var to: seq<Decision>
    var cc: seq<Address>
    var bcc: seq<Address>

    constructor (to: seq<Decision>, cc: seq<Address>, bcc: seq<Address>)
      ensures Contents() == Verdict(to, cc, bcc)
    {
      this.to, this.cc, this.bcc := to, cc, bcc;
    }

    function Contents(): Verdict
      reads this
    {
      Verdict(to, cc, bcc)
    }

    /** The body of applyTypeOptOutsToEvaluations for one evaluation. */
    method ApplyTypeOptOuts(canon: Address -> Address, optOuts: set<Address>)
      modifies this
      ensures Contents() == WithOptOuts(canon, optOuts, old(Contents()))
    {
      for i := 0 to |to|
        invariant |to| == old(|to|) && cc == old(cc) && bcc == old(bcc)
        invariant forall j | 0 <= j < |to| ::
          to[j] == if j < i then OptDecision(canon, optOuts, old(to)[j]) else old(to)[j]
      {
        if to[i].suppressed {
          continue;
        }
        if canon(to[i].address) in optOuts {
          to := to[i := to[i].(suppressed := true, reason := "type_optout")];
        }
      }
      cc := FilterTypeOptOuts(canon, cc, optOuts);
      bcc := FilterTypeOptOuts(canon, bcc, optOuts);
    }
  }

  // --------------------------------------------------------------------- evaluator

  ghost predicate Distinct(evals: seq<Evaluation>) {
    forall i, j | 0 <= i < j < |evals| :: evals[i] != evals[j]
  }

  ghost function Verdicts(evals: seq<Evaluation>): (vs: seq<Verdict>)
    reads evals
    ensures |vs| == |evals| && forall i | 0 <= i < |vs| :: vs[i] == evals[i].Contents()
  {
    seq(|evals|, i requires 0 <= i < |evals| reads evals => evals[i].Contents())
  }

  method ProjectTo(canon: Address -> Address, input: seq<Address>, suppressedByEmail: map<Address, string>)
    returns (to: seq<Decision>)
    requires EMPTY !in suppressedByEmail
    ensures |to| == |input| && forall j | 0 <= j < |to| :: to[j] == Decide(canon, suppressedByEmail, {}, input[j])
  {
    to := [];
    for i := 0 to |input|
      invariant |to| == i
      invariant forall j | 0 <= j < i :: to[j] == Decide(canon, suppressedByEmail, {}, input[j])
    {
      var c := canon(input[i]);
      to := to + [Decision(input[i], c in suppressedByEmail, if c in suppressedByEmail then suppressedByEmail[c] else "")];
    }
  }

  method ProjectSuppressionBatch(canon: Address -> Address, input: BatchInput, suppressedByEmail: map<Address, string>)
    returns (e: Evaluation)
    requires EMPTY !in suppressedByEmail
    ensures fresh(e) && e.Contents() == Evaluated(canon, suppressedByEmail, {}, input)
  {
    var to := ProjectTo(canon, input.to, suppressedByEmail);
    var cc := KeepUnsuppressed(canon, input.cc, suppressedByEmail);
    var bcc := KeepUnsuppressed(canon, input.bcc, suppressedByEmail);
    assert to == Evaluated(canon, suppressedByEmail, {}, input).to;
    e := new Evaluation(to, cc, bcc);
  }

  /** The query entries one evaluation contributes. */
  method AddRemaining(canon: Address -> Address, dst: seq<Address>, seen: set<Address>, eval: Evaluation)
    returns (dst': seq<Address>, seen': set<Address>)
    requires AsksExactly(dst, seen)
    ensures AsksExactly(dst', seen') && seen' == seen + CanonicalsOf(canon, Remaining(eval.Contents()))
  {
    dst', seen' := dst, seen;
    for k := 0 to |eval.to|
      invariant AsksExactly(dst', seen') && seen' == seen + CanonicalsOf(canon, UnsuppressedTo(eval.to[..k]))
    {
      if !eval.to[k].suppressed {
        dst', seen' := AddUniqueCanonical(canon, dst', seen', eval.to[k].address);
      }
      assert eval.to[..k + 1][..k] == eval.to[..k];
    }
    assert eval.to[..|eval.to|] == eval.to;
    dst', seen' := AddAllCanonical(canon, dst', seen', eval.cc);
    dst', seen' := AddAllCanonical(canon, dst', seen', eval.bcc);
  }

  method CollectUnsuppressedCanonical(canon: Address -> Address, evals: seq<Evaluation>) returns (canonical: seq<Address>)
    ensures AsksExactly(canonical, CanonicalsOf(canon, AllRemaining(Verdicts(evals))))
  {
    canonical := [];
    var seen: set<Address> := {};
    ghost var vs := Verdicts(evals);
    for i := 0 to |evals|
      invariant AsksExactly(canonical, seen) && seen == CanonicalsOf(canon, AllRemaining(vs[..i]))
    {
      canonical, seen := AddRemaining(canon, canonical, seen, evals[i]);
      assert vs[..i + 1][..i] == vs[..i];
    }
    assert vs[..|evals|] == vs;
  }

  method ApplyTypeOptOutsToEvaluations(canon: Address -> Address, evals: seq<Evaluation>, optOuts: set<Address>)
    requires Distinct(evals)
    modifies evals
    ensures forall i | 0 <= i < |evals| :: evals[i].Contents() == WithOptOuts(canon, optOuts, old(evals[i].Contents()))
  {
    for k := 0 to |evals|
      invariant forall i | 0 <= i < k :: evals[i].Contents() == WithOptOuts(canon, optOuts, old(evals[i].Contents()))
      invariant forall i | k <= i < |evals| :: evals[i].Contents() == old(evals[i].Contents())
    {
      evals[k].ApplyTypeOptOuts(canon, optOuts);
    }
  }

  // -------------------------------------------- two passes make the pointwise verdict

  lemma {:induction false} RemainingTo(
      canon: Address -> Address, table: map<Address, string>, input: BatchInput, to: seq<Decision>, c: Address)
    requires |to| <= |input.to|
    requires forall i | 0 <= i < |to| :: to[i] == Decide(canon, table, {}, input.to[i])
    ensures c in CanonicalsOf(canon, UnsuppressedTo(to)) <==> c in CanonicalsOf(canon, input.to[..|to|]) - table.Keys
  {
    if to != [] {
      var n := |to| - 1;
      RemainingTo(canon, table, input, to[..n], c);
      assert input.to[..n + 1] == input.to[..n] + [input.to[n]];
      assert c in CanonicalsOf(canon, input.to[..n + 1]) <==>
        c in CanonicalsOf(canon, input.to[..n]) || (c == canon(input.to[n]) && c != EMPTY);
    }
  }

  lemma {:induction false} RemainingCopies(
      canon: Address -> Address, table: map<Address, string>, addrs: seq<Address>, c: Address)
    ensures c in CanonicalsOf(canon, Kept(canon, table, {}, addrs)) <==> c in CanonicalsOf(canon, addrs) - table.Keys
  {
    if addrs != [] {
      var n := |addrs| - 1;
      RemainingCopies(canon, table, addrs[..n], c);
      assert addrs == addrs[..n] + [addrs[n]];
      assert c in CanonicalsOf(canon, addrs) <==>
        c in CanonicalsOf(canon, addrs[..n]) || (c == canon(addrs[n]) && c != EMPTY);
    }
  }

  /** What remains after the first level is exactly what the first level let through. */
  lemma {:induction false} RemainingIsUnsuppressed(canon: Address -> Address, table: map<Address, string>, input: BatchInput)
    ensures CanonicalsOf(canon, Remaining(Evaluated(canon, table, {}, input)))
         == CanonicalsOf(canon, Recipients(input)) - table.Keys
  {
    var v := Evaluated(canon, table, {}, input);
    forall c ensures c in CanonicalsOf(canon, Remaining(v)) <==> c in CanonicalsOf(canon, Recipients(input)) - table.Keys {
      RemainingTo(canon, table, input, v.to, c);
      assert input.to[..|v.to|] == input.to;
      RemainingCopies(canon, table, input.cc, c);
      RemainingCopies(canon, table, input.bcc, c);
    }
  }

  lemma {:induction false} CanonicalsOfAppend(canon: Address -> Address, a: seq<Address>, b: seq<Address>)
    ensures CanonicalsOf(canon, a + b) == CanonicalsOf(canon, a) + CanonicalsOf(canon, b)
  {
  }

  lemma {:induction false} AllRemainingIsUnsuppressed(
      canon: Address -> Address, table: map<Address, string>, inputs: seq<BatchInput>, vs: seq<Verdict>)
    requires |vs| == |inputs| && forall i | 0 <= i < |vs| :: vs[i] == Evaluated(canon, table, {}, inputs[i])
    ensures CanonicalsOf(canon, AllRemaining(vs)) == CanonicalsOf(canon, AllRecipients(inputs)) - table.Keys
  {
    if vs != [] {
      var n := |vs| - 1;
      AllRemainingIsUnsuppressed(canon, table, inputs[..n], vs[..n]);
      RemainingIsUnsuppressed(canon, table, inputs[n]);
      CanonicalsOfAppend(canon, AllRemaining(vs[..n]), Remaining(vs[n]));
      CanonicalsOfAppend(canon, AllRecipients(inputs[..n]), Recipients(inputs[n]));
    }
  }

  /** Restricting both answers to what was asked changes nothing: first level, then
      opt-outs of the rest, is the pointwise verdict with workspace reasons winning. */
  lemma {:induction false} TwoPassesDecide(
      canon: Address -> Address, table: map<Address, string>, optedOut: set<Address>, asked: set<Address>,
      answer: map<Address, string>, input: BatchInput)
    requires CanonicalsOf(canon, Recipients(input)) <= asked && EMPTY !in asked
    requires answer == map a | a in table && a in asked :: table[a]
    ensures WithOptOuts(canon, optedOut * (asked - answer.Keys), Evaluated(canon, answer, {}, input))
         == Evaluated(canon, table, optedOut, input)
  {
    var optOuts := optedOut * (asked - answer.Keys);
    var v, w := Evaluated(canon, answer, {}, input), Evaluated(canon, table, optedOut, input);
    forall a | a in Recipients(input)
      ensures OptDecision(canon, optOuts, Decide(canon, answer, {}, a)) == Decide(canon, table, optedOut, a)
    {
      assert canon(a) != EMPTY ==> canon(a) in CanonicalsOf(canon, Recipients(input));
    }
    assert WithOptOuts(canon, optOuts, v).to == w.to;
    TwoPassesKeep(canon, table, optedOut, answer, optOuts, input.cc);
    TwoPassesKeep(canon, table, optedOut, answer, optOuts, input.bcc);
  }

  lemma {:induction false} TwoPassesKeep(
      canon: Address -> Address, table: map<Address, string>, optedOut: set<Address>,
      answer: map<Address, string>, optOuts: set<Address>, addrs: seq<Address>)
    requires forall a | a in addrs ::
      OptDecision(canon, optOuts, Decide(canon, answer, {}, a)) == Decide(canon, table, optedOut, a)
    ensures WithoutOptOuts(canon, optOuts, Kept(canon, answer, {}, addrs)) == Kept(canon, table, optedOut, addrs)
  {
    if addrs != [] {
      var front, last := addrs[..|addrs| - 1], addrs[|addrs| - 1];
      TwoPassesKeep(canon, table, optedOut, answer, optOuts, front);
      var kept := Kept(canon, answer, {}, front);
      assert OptDecision(canon, optOuts, Decide(canon, answer, {}, last)) == Decide(canon, table, optedOut, last);
      assert Kept(canon, answer, {}, addrs) == if Decide(canon, answer, {}, last).suppressed then kept else kept + [last];
      assert (kept + [last])[..|kept|] == kept;
    }
  }

  /** Every input's canonical recipients are among those of all inputs. */
  lemma {:induction false} RecipientsAreAsked(canon: Address -> Address, inputs: seq<BatchInput>, k: nat)
    requires k < |inputs|
    ensures CanonicalsOf(canon, Recipients(inputs[k])) <= CanonicalsOf(canon, AllRecipients(inputs))
  {
    var n := |inputs| - 1;
    CanonicalsOfAppend(canon, AllRecipients(inputs[..n]), Recipients(inputs[n]));
    if k < n {
      RecipientsAreAsked(canon, inputs[..n], k);
    }
  }

  class SuppressionBatchEvaluator {
    const canon: Address -> Address
    const store: SuppressionStore
    /** The per-type opt-out store, if WithTemplateTypeStore attached one. */
    const tts: OptOutStore?

    constructor (canon: Address -> Address, store: SuppressionStore, tts: OptOutStore?)
      ensures this.canon == canon && this.store == store && this.tts == tts
    {
      this.canon, this.store, this.tts := canon, store, tts;
    }

    function OptedOut(): set<Address> {
      if tts == null then {} else tts.optedOut
    }

    function Frame(): set<object> {
      if tts == null then {store} else {store, tts}
    }

    /** The verdicts on `inputs` are the pointwise ones, on fresh distinct objects. */
    ghost predicate Judged(inputs: seq<BatchInput>, optOuts: set<Address>, evals: seq<Evaluation>)
      reads evals
    {
      && |evals| == |inputs| && Distinct(evals)
      && forall k | 0 <= k < |inputs| :: evals[k].Contents() == Evaluated(canon, store.table, optOuts, inputs[k])
    }

    /** The loop of EvaluateMany that gathers what to ask. */
    method GatherLookup(inputs: seq<BatchInput>) returns (lookup: seq<Address>)
      ensures AsksExactly(lookup, CanonicalsOf(canon, AllRecipients(inputs)))
    {
      lookup := [];
      var seen: set<Address> := {};
      for i := 0 to |inputs|
        invariant AsksExactly(lookup, seen) && seen == CanonicalsOf(canon, AllRecipients(inputs[..i]))
      {
        var input := inputs[i];
        lookup, seen := AppendUniqueCanonicalRecipients(canon, lookup, seen, [input.to, input.cc, input.bcc]);
        assert inputs[..i + 1][..i] == inputs[..i];
        CanonicalsOfAppend(canon, AllRecipients(inputs[..i]), Recipients(input));
      }
      assert inputs[..|inputs|] == inputs;
    }

    /** The loop of EvaluateMany that projects the answer on every input. */
    method ProjectAll(inputs: seq<BatchInput>, answer: map<Address, string>) returns (results: seq<Evaluation>)
      requires EMPTY !in answer
      ensures |results| == |inputs| && Distinct(results)
      ensures forall k | 0 <= k < |inputs| ::
        fresh(results[k]) && results[k].Contents() == Evaluated(canon, answer, {}, inputs[k])
    {
      results := [];
      for i := 0 to |inputs|
        invariant |results| == i && Distinct(results)
        invariant forall k | 0 <= k < i ::
          fresh(results[k]) && results[k].Contents() == Evaluated(canon, answer, {}, inputs[k])
      {
        var e := ProjectSuppressionBatch(canon, inputs[i], answer);
        results := results + [e];
      }
    }

    /** What CheckBatch answers when asked about all recipients of `inputs`. */
    ghost function Answer(inputs: seq<BatchInput>): map<Address, string> {
      map a | a in store.table && a in CanonicalsOf(canon, AllRecipients(inputs)) :: store.table[a]
    }

    method EvaluateMany(inputs: seq<BatchInput>, storeOk: bool)
      returns (r: Result<seq<Evaluation>, string>, ghost query: seq<Address>)
      modifies store`queries
      ensures store.queries == old(store.queries) + [query]
      ensures AsksExactly(query, CanonicalsOf(canon, AllRecipients(inputs)))
      ensures r.Ok? <==> storeOk
      ensures r.Ok? ==>
        && |r.value| == |inputs| && Distinct(r.value)
        && forall k | 0 <= k < |inputs| ::
             fresh(r.value[k]) && r.value[k].Contents() == Evaluated(canon, Answer(inputs), {}, inputs[k])
    {
      var lookup := GatherLookup(inputs);
      query := lookup;
      var checked := store.CheckBatch(lookup, storeOk);
      if checked.Err? {
        return Err(checked.error), query;
      }
      assert checked.value == Answer(inputs) by {
        assert forall a :: a in lookup <==> a in Elements(lookup);
      }
      var results := ProjectAll(inputs, checked.value);
      return Ok(results), query;
    }

    /** The evaluations after the first level, as objects. */
    ghost predicate FirstLevel(inputs: seq<BatchInput>, evals: seq<Evaluation>)
      reads evals
    {
      && |evals| == |inputs| && Distinct(evals)
      && forall k | 0 <= k < |inputs| :: evals[k].Contents() == Evaluated(canon, Answer(inputs), {}, inputs[k])
    }

    /** The first level lets through the canonical recipients outside the table. */
    lemma {:induction false} FirstLevelRemains(inputs: seq<BatchInput>, evals: seq<Evaluation>)
      requires FirstLevel(inputs, evals)
      ensures CanonicalsOf(canon, AllRemaining(Verdicts(evals)))
           == CanonicalsOf(canon, AllRecipients(inputs)) - store.table.Keys
           == CanonicalsOf(canon, AllRecipients(inputs)) - Answer(inputs).Keys
    {
      AllRemainingIsUnsuppressed(canon, Answer(inputs), inputs, Verdicts(evals));
    }

    lemma {:induction false} FirstLevelIsFinal(inputs: seq<BatchInput>, evals: seq<Evaluation>, optedOut: set<Address>)
      requires FirstLevel(inputs, evals)
      requires optedOut * (CanonicalsOf(canon, AllRecipients(inputs)) - Answer(inputs).Keys) == {}
      ensures Judged(inputs, optedOut, evals)
    {
      forall k | 0 <= k < |inputs| ensures evals[k].Contents() == Evaluated(canon, store.table, optedOut, inputs[k]) {
        VerdictOf(inputs, k, optedOut);
        NoOptOuts(canon, evals[k].Contents());
      }
    }

    /** Applying the answered opt-outs to first-level verdicts makes them final. */
    lemma {:induction false} SecondLevelIsFinal(inputs: seq<BatchInput>, before: seq<Verdict>, optOuts: set<Address>)
      requires |before| == |inputs|
      requires forall k | 0 <= k < |inputs| :: before[k] == Evaluated(canon, Answer(inputs), {}, inputs[k])
      requires optOuts == OptedOut() * (CanonicalsOf(canon, AllRecipients(inputs)) - Answer(inputs).Keys)
      ensures forall k | 0 <= k < |inputs| ::
        WithOptOuts(canon, optOuts, before[k]) == Evaluated(canon, store.table, OptedOut(), inputs[k])
    {
      forall k | 0 <= k < |inputs|
        ensures WithOptOuts(canon, optOuts, before[k]) == Evaluated(canon, store.table, OptedOut(), inputs[k])
      {
        VerdictOf(inputs, k, OptedOut());
      }
    }

    /** Steps 2 and 3: ask for type opt-outs of what remains, and apply them. */
    method ApplyTypeLevel(inputs: seq<BatchInput>, evals: seq<Evaluation>, ttsOk: bool)
      returns (ok: bool, ghost query: seq<Address>)
      requires tts != null && FirstLevel(inputs, evals) && forall e | e in evals :: e != tts as object
      modifies tts`queries, evals
      ensures tts.queries == old(tts.queries) + [query]
      ensures AsksExactly(query, CanonicalsOf(canon, AllRecipients(inputs)) - store.table.Keys)
      ensures ok == ttsOk
      ensures ok ==> Judged(inputs, OptedOut(), evals)
    {
      var canonical := CollectUnsuppressedCanonical(canon, evals);
      query := canonical;
      FirstLevelRemains(inputs, evals);
      var optOuts := tts.BatchCheckOptOut(canonical, ttsOk);
      if optOuts.Err? {
        return false, query;
      }
      if optOuts.value == {} {
        FirstLevelIsFinal(inputs, evals, OptedOut());
        return true, query;
      }
      ghost var before := Verdicts(evals);
      ApplyTypeOptOutsToEvaluations(canon, evals, optOuts.value);
      SecondLevelIsFinal(inputs, before, optOuts.value);
      return true, query;
    }

    /** The batch evaluator. Its first query asks about exactly the canonical
        recipients of all inputs, its second about exactly those the first level let
        through, each once; and every input gets its pointwise verdict. */
    method EvaluateManyForType(inputs: seq<BatchInput>, storeOk: bool, ttsOk: bool)
      returns (r: Result<seq<Evaluation>, string>, ghost first: seq<Address>, ghost second: seq<Address>)
      modifies Frame()
      ensures store.queries == old(store.queries) + [first]
      ensures AsksExactly(first, CanonicalsOf(canon, AllRecipients(inputs)))
      ensures tts != null && storeOk ==>
        && tts.queries == old(tts.queries) + [second]
        && AsksExactly(second, CanonicalsOf(canon, AllRecipients(inputs)) - store.table.Keys)
      ensures r.Ok? <==> storeOk && (tts != null ==> ttsOk)
      ensures r.Ok? ==> Judged(inputs, OptedOut(), r.value) && forall e | e in r.value :: fresh(e)
    {
      var base: Result<seq<Evaluation>, string>;
      base, first := EvaluateMany(inputs, storeOk);
      second := [];
      if base.Err? {
        return base, first, second;
      }
      if tts == null {
        FirstLevelIsFinal(inputs, base.value, {});
        return base, first, second;
      }
      var ok;
      ok, second := ApplyTypeLevel(inputs, base.value, ttsOk);
      return if ok then base else Err("evaluate type opt-outs (batch)"), first, second;
    }

    /** The single-message evaluator, with its own pass over what remains. It asks
        and decides exactly as the batch evaluator does on this one input. */
    method EvaluateForType(input: BatchInput, storeOk: bool, ttsOk: bool)
      returns (r: Result<Evaluation, string>, ghost first: seq<Address>, ghost second: seq<Address>)
      modifies Frame()
      ensures store.queries == old(store.queries) + [first]
      ensures AsksExactly(first, CanonicalsOf(canon, Recipients(input)))
      ensures tts != null && storeOk ==>
        && tts.queries == old(tts.queries) + [second]
        && AsksExactly(second, CanonicalsOf(canon, Recipients(input)) - store.table.Keys)
      ensures r.Ok? <==> storeOk && (tts != null ==> ttsOk)
      ensures r.Ok? ==> fresh(r.value) && r.value.Contents() == Evaluated(canon, store.table, OptedOut(), input)
    {
      var all := [input];
      assert AllRecipients(all) == Recipients(input);
      second := [];
      var many;
      many, first := EvaluateMany(all, storeOk);
      if many.Err? {
        return Err(many.error), first, second;
      }
      var base := many.value[0];
      FirstLevelRemains(all, many.value);
      assert AllRemaining(Verdicts(many.value)) == Remaining(base.Contents());
      if tts == null {
        FirstLevelIsFinal(all, many.value, {});
        return Ok(base), first, second;
      }
      var canonical, _ := AddRemaining(canon, [], {}, base);
      second := canonical;
      var optOuts := tts.BatchCheckOptOut(canonical, ttsOk);
      if optOuts.Err? {
        return Err(optOuts.error), first, second;
      }
      if optOuts.value == {} {
        FirstLevelIsFinal(all, many.value, OptedOut());
        return Ok(base), first, second;
      }
      VerdictOf(all, 0, OptedOut());
      base.ApplyTypeOptOuts(canon, optOuts.value);
      return Ok(base), first, second;
    }

    lemma {:induction false} VerdictOf(inputs: seq<BatchInput>, k: nat, optedOut: set<Address>)
      requires k < |inputs|
      ensures var asked := CanonicalsOf(canon, AllRecipients(inputs));
        WithOptOuts(canon, optedOut * (asked - Answer(inputs).Keys), Evaluated(canon, Answer(inputs), {}, inputs[k]))
        == Evaluated(canon, store.table, optedOut, inputs[k])
    {
      RecipientsAreAsked(canon, inputs, k);
      TwoPassesDecide(
        canon, store.table, optedOut, CanonicalsOf(canon, AllRecipients(inputs)), Answer(inputs), inputs[k]);
    }
  }

  lemma {:induction false} NoOptOuts(canon: Address -> Address, v: Verdict)
    ensures WithOptOuts(canon, {}, v) == v
  {
    NothingRemoved(canon, v.cc);
    NothingRemoved(canon, v.bcc);
    assert WithOptOuts(canon, {}, v).to == v.to;
  }

  lemma {:induction false} NothingRemoved(canon: Address -> Address, addrs: seq<Address>)
    ensures WithoutOptOuts(canon, {}, addrs) == addrs
  {
    if addrs != [] {
      NothingRemoved(canon, addrs[..|addrs| - 1]);
    }
  }
}
