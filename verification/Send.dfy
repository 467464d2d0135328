/** Sending one message: test recipient policy, suppression and the recipient loop
    of internal/service/send.go. */
module Sending {
  import opened Common
  import opened Suppression
  import opened SendPersistence

  // ------------------------------------------------------- test recipient policy

  datatype Mode = Replace | Append | Invalid(name: string)

  datatype Workspace = Workspace(isTest: bool, mode: Mode, testAddresses: seq<Address>, defaultLocale: Option<string>)

  datatype TemplateType = TemplateType(id: Uuid, mode: Option<Mode>, testAddresses: seq<Address>)

  /** `normalize` is domain.NormalizeRecipientAddresses; nothing is assumed of it. */
  type Normalizer = seq<Address> -> seq<Address>

  function ApplyTestRecipientPolicy(ws: Workspace, tt: TemplateType, normalize: Normalizer, input: BatchInput)
    : Result<BatchInput, string>
  {
    if !ws.isTest then Ok(input)
    else
      var own := tt.mode.Some? && !tt.mode.value.Invalid?;
      var mode := if own then tt.mode.value else if ws.mode.Invalid? then Replace else ws.mode;
      var recipients := normalize(if own then tt.testAddresses else ws.testAddresses);
      if recipients == [] then Err("test recipient policy is unconfigured")
      else if mode == Append then Ok(input.(to := normalize(input.to) + recipients))
      else Ok(BatchInput(recipients, [], []))
  }

  /** The template type configures its own test recipients. */
  predicate OwnPolicy(tt: TemplateType) {
    tt.mode == Some(Replace) || tt.mode == Some(Append)
  }

  predicate Appends(ws: Workspace, tt: TemplateType) {
    if OwnPolicy(tt) then tt.mode == Some(Append) else ws.mode == Append
  }

  /** The configured test recipients, of the type if it has a policy, else of the workspace. */
  predicate Configures(ws: Workspace, tt: TemplateType, addresses: seq<Address>) {
    if OwnPolicy(tt) then addresses == tt.testAddresses else addresses == ws.testAddresses
  }

  /** Outside a test workspace the policy leaves every message alone. */
  lemma {:induction false} PolicySparesLiveWorkspaces(ws: Workspace, tt: TemplateType, normalize: Normalizer, input: BatchInput)
    requires !ws.isTest
    ensures ApplyTestRecipientPolicy(ws, tt, normalize, input) == Ok(input)
  {
  }

  /** In a test workspace a message is refused exactly when the configured recipients
      normalise to nothing. Otherwise they are appended to its own, or replace all of
      its recipients, copies included. */
  lemma {:induction false} PolicyInTestWorkspace(
      ws: Workspace, tt: TemplateType, normalize: Normalizer, configured: seq<Address>, input: BatchInput)
    requires ws.isTest && Configures(ws, tt, configured)
    ensures var r := ApplyTestRecipientPolicy(ws, tt, normalize, input);
      && (r.Err? <==> normalize(configured) == [])
      && (r.Ok? && Appends(ws, tt) ==>
            r.value.to == normalize(input.to) + normalize(configured) && r.value.cc == input.cc && r.value.bcc == input.bcc)
      && (r.Ok? && !Appends(ws, tt) ==> r.value.to == normalize(configured) && r.value.cc == [] && r.value.bcc == [])
  {
  }

  /** So where the policy replaces, what a request asks for makes no difference. */
  lemma {:induction false} ReplacementIgnoresTheRequest(
      ws: Workspace, tt: TemplateType, normalize: Normalizer, configured: seq<Address>, a: BatchInput, b: BatchInput)
    requires ws.isTest && Configures(ws, tt, configured) && !Appends(ws, tt)
    ensures ApplyTestRecipientPolicy(ws, tt, normalize, a) == ApplyTestRecipientPolicy(ws, tt, normalize, b)
  {
    PolicyInTestWorkspace(ws, tt, normalize, configured, a);
    PolicyInTestWorkspace(ws, tt, normalize, configured, b);
  }

  // --------------------------------------------------------------- recipient loop

  datatype Outcome = Accepted | WasSuppressed | Failed

  datatype TrackingEntry = TrackingEntry(to: Address, trackingId: string, outcome: Outcome)

  /** What all emails of one message share. */
  datatype Envelope = Envelope(cc: seq<Address>, bcc: seq<Address>, content: Content)

  /** The adapter and the rendered template. */
  datatype Content = Content(adapterId: Uuid, body: string)

  /** What chance contributes to one recipient: fresh ids, and which statements fail. */
  datatype Chance = Chance(id: Uuid, trackingId: string, faults: TxFaults)

  function RowFor(env: Envelope, d: Decision, c: Chance): EmailRow {
    EmailRow(c.trackingId, d.address, env.cc, env.bcc, env.content.body, if d.suppressed then Suppressed else Queued)
  }

  /** One turn of the loop. */
  function SendOne(db: Db, env: Envelope, d: Decision, c: Chance): (Db, TrackingEntry) {
    if d.suppressed then
      if SuppressedOk(db, c.id, c.faults)
      then (Suppress(db, c.id, RowFor(env, d, c), d.reason), TrackingEntry(d.address, c.trackingId, WasSuppressed))
      else (db, TrackingEntry(d.address, c.trackingId, Failed))
    else
      if QueuedOk(db, c.id, c.faults)
      then (Queue(db, c.id, RowFor(env, d, c), env.content.adapterId), TrackingEntry(d.address, c.trackingId, Accepted))
      else (db, TrackingEntry(d.address, c.trackingId, Failed))
  }

  /** The whole loop. */
  function SendAll(db: Db, env: Envelope, to: seq<Decision>, chance: nat -> Chance): (r: (Db, seq<TrackingEntry>))
    ensures |r.1| == |to|
  {
    if to == [] then (db, [])
    else
      var n := |to| - 1;
      var before := SendAll(db, env, to[..n], chance);
      var turn := SendOne(before.0, env, to[n], chance(n));
      (turn.0, before.1 + [turn.1])
  }

  function Is(o: Outcome): TrackingEntry -> bool {
    (e: TrackingEntry) => e.outcome == o
  }

  /** The ids that the entries which did not fail report as written. */
  function Persisted(entries: seq<TrackingEntry>, chance: nat -> Chance): seq<Uuid> {
    if entries == [] then []
    else
      var n := |entries| - 1;
      Persisted(entries[..n], chance) + if entries[n].outcome == Failed then [] else [chance(n).id]
  }

  /** Each entry reports its own recipient, and the outcome its verdict calls for or a failure. */
  lemma {:induction false} EntriesReportRecipients(db: Db, env: Envelope, to: seq<Decision>, chance: nat -> Chance, k: nat)
    requires k < |to|
    ensures var e := SendAll(db, env, to, chance).1[k];
      && e.to == to[k].address && e.trackingId == chance(k).trackingId
      && e.outcome in {if to[k].suppressed then WasSuppressed else Accepted, Failed}
  {
    var n := |to| - 1;
    if k < n {
      EntriesReportRecipients(db, env, to[..n], chance, k);
    }
  }

  /** Every send keeps emails, jobs and events in step, whatever fails. */
  lemma {:induction false} SendKeepsInStep(db: Db, env: Envelope, to: seq<Decision>, chance: nat -> Chance)
    requires InStep(db)
    ensures InStep(SendAll(db, env, to, chance).0)
  {
    if to != [] {
      var n := |to| - 1;
      SendKeepsInStep(db, env, to[..n], chance);
      var before := SendAll(db, env, to[..n], chance).0;
      var d, c := to[n], chance(n);
      if d.suppressed && SuppressedOk(before, c.id, c.faults) {
        SuppressKeepsInStep(before, c.id, RowFor(env, d, c), d.reason);
      } else if !d.suppressed && QueuedOk(before, c.id, c.faults) {
        QueueKeepsInStep(before, c.id, RowFor(env, d, c), env.content.adapterId);
      }
    }
  }

  /** From `db` to `db'` exactly the emails `ids` are new, with one job per accepted
      and one event per new email, and nothing already stored has changed. */
  ghost predicate Grew(db: Db, db': Db, ids: seq<Uuid>, accepted: nat, suppressed: nat) {
    && NoDuplicates(ids) && |ids| == accepted + suppressed
    && Elements(ids) !! db.emails.Keys
    && db'.emails.Keys == db.emails.Keys + Elements(ids)
    && |db'.jobs| == |db.jobs| + accepted && db.jobs <= db'.jobs
    && |db'.events| == |db.events| + accepted + suppressed && db.events <= db'.events
    && forall id | id in db.emails :: db'.emails[id] == db.emails[id]
  }

  lemma {:induction false} TurnGrows(db: Db, mid: Db, ids: seq<Uuid>, a: nat, s: nat, env: Envelope, d: Decision, c: Chance)
    requires Grew(db, mid, ids, a, s)
    ensures var (db', entry) := SendOne(mid, env, d, c);
      match entry.outcome
      case Failed => db' == mid
      case Accepted => Grew(db, db', ids + [c.id], a + 1, s)
      case WasSuppressed => Grew(db, db', ids + [c.id], a, s + 1)
  {
    if SendOne(mid, env, d, c).1.outcome != Failed {
      assert c.id !in mid.emails && c.id !in Elements(ids);
      NoDuplicatesAppend(ids, c.id);
    }
  }

  /** Conservation: the store gains exactly one new email per entry that did not
      fail, one job per accepted entry, one event per email; failed entries leave
      nothing behind, and nothing already stored changes. */
  lemma {:induction false} SendConserves(db: Db, env: Envelope, to: seq<Decision>, chance: nat -> Chance)
    ensures var (db', entries) := SendAll(db, env, to, chance);
      Grew(db, db', Persisted(entries, chance), Count(entries, Is(Accepted)), Count(entries, Is(WasSuppressed)))
  {
    if to != [] {
      var n := |to| - 1;
      SendConserves(db, env, to[..n], chance);
      var (mid, front) := SendAll(db, env, to[..n], chance);
      var entry := SendOne(mid, env, to[n], chance(n)).1;
      var ids, a, s := Persisted(front, chance), Count(front, Is(Accepted)), Count(front, Is(WasSuppressed));
      TurnGrows(db, mid, ids, a, s, env, to[n], chance(n));
      CountAppend(front, entry, Is(Accepted));
      CountAppend(front, entry, Is(WasSuppressed));
      assert (front + [entry])[..n] == front;
    }
  }

  /** The store gained the very email, with its copies, status and tracking id, that
      this turn stands for. */
  ghost predicate Wrote(db: Db, db': Db, env: Envelope, d: Decision, c: Chance) {
    c.id !in db.emails && c.id in db'.emails && db'.emails[c.id] == RowFor(env, d, c)
  }

  /** The new emails are those of the entries that did not fail, one by one. */
  ghost predicate RowsMatch(
      db: Db, db': Db, env: Envelope, to: seq<Decision>, entries: seq<TrackingEntry>, chance: nat -> Chance)
  {
    && |entries| == |to|
    && (forall k | 0 <= k < |to| && entries[k].outcome != Failed :: Wrote(db, db', env, to[k], chance(k)))
    && (forall id | id in db'.emails && id !in db.emails ::
          exists k :: 0 <= k < |to| && entries[k].outcome != Failed && chance(k).id == id)
  }

  /** One turn writes its own email or none. */
  ghost predicate Turned(mid: Db, db': Db, row: EmailRow, id: Uuid, outcome: Outcome) {
    if outcome == Failed then db'.emails == mid.emails else id !in mid.emails && db'.emails == mid.emails[id := row]
  }

  lemma {:induction false} TurnWrites(mid: Db, env: Envelope, d: Decision, c: Chance)
    ensures var (db', entry) := SendOne(mid, env, d, c);
      Turned(mid, db', RowFor(env, d, c), c.id, entry.outcome)
  {
  }

  lemma {:induction false} RowsMatchOneMore(
      db: Db, mid: Db, db': Db, env: Envelope, to: seq<Decision>, d: Decision, entries: seq<TrackingEntry>,
      entry: TrackingEntry, chance: nat -> Chance)
    requires RowsMatch(db, mid, env, to, entries, chance) && db.emails.Keys <= mid.emails.Keys
    requires Turned(mid, db', RowFor(env, d, chance(|to|)), chance(|to|).id, entry.outcome)
    ensures RowsMatch(db, db', env, to + [d], entries + [entry], chance)
  {
    var n, to', entries' := |to|, to + [d], entries + [entry];
    forall k | 0 <= k < n + 1 && entries'[k].outcome != Failed ensures Wrote(db, db', env, to'[k], chance(k)) {
      if k < n {
        assert entries[k].outcome != Failed && Wrote(db, mid, env, to[k], chance(k));
      }
    }
    forall id | id in db'.emails && id !in db.emails
      ensures exists k :: 0 <= k < n + 1 && entries'[k].outcome != Failed && chance(k).id == id
    {
      if id in mid.emails {
        var k :| 0 <= k < n && entries[k].outcome != Failed && chance(k).id == id;
        assert entries'[k].outcome != Failed;
      } else {
        assert entries'[n].outcome != Failed && chance(n).id == id;
      }
    }
  }

  lemma {:induction false} EntriesAreRows(db: Db, env: Envelope, to: seq<Decision>, chance: nat -> Chance)
    ensures var (db', entries) := SendAll(db, env, to, chance); RowsMatch(db, db', env, to, entries, chance)
  {
    if to != [] {
      var n := |to| - 1;
      EntriesAreRows(db, env, to[..n], chance);
      SendConserves(db, env, to[..n], chance);
      var (mid, front) := SendAll(db, env, to[..n], chance);
      var (db', entry) := SendOne(mid, env, to[n], chance(n));
      TurnWrites(mid, env, to[n], chance(n));
      RowsMatchOneMore(db, mid, db', env, to[..n], to[n], front, entry, chance);
      assert to == to[..n] + [to[n]];
    }
  }

  /** An email written by this send carries the tracking id. */
  ghost predicate Trackable(db: Db, db': Db, trackingId: string) {
    exists id :: id in db'.emails && id !in db.emails && db'.emails[id].trackingId == trackingId
  }

  /** A reported tracking id leads to an email exactly when its entry did not fail. */
  lemma {:induction false} TrackableIff(db: Db, env: Envelope, to: seq<Decision>, chance: nat -> Chance, k: nat)
    requires k < |to|
    requires forall i, j | 0 <= i < j < |to| :: chance(i).trackingId != chance(j).trackingId
    ensures var (db', entries) := SendAll(db, env, to, chance);
      Trackable(db, db', entries[k].trackingId) <==> entries[k].outcome != Failed
  {
    var (db', entries) := SendAll(db, env, to, chance);
    EntriesAreRows(db, env, to, chance);
    EntriesReportRecipients(db, env, to, chance, k);
    if entries[k].outcome != Failed {
      assert Wrote(db, db', env, to[k], chance(k));
    }
    if Trackable(db, db', entries[k].trackingId) {
      var id :| id in db'.emails && id !in db.emails && db'.emails[id].trackingId == entries[k].trackingId;
      var j :| 0 <= j < |to| && entries[j].outcome != Failed && chance(j).id == id;
      assert Wrote(db, db', env, to[j], chance(j));
      assert chance(j).trackingId == chance(k).trackingId;
      assert j == k;
    }
  }

  /** failCount and the two other counters partition the entries. */
  lemma {:induction false} OutcomesPartition(entries: seq<TrackingEntry>)
    ensures Count(entries, Is(Accepted)) + Count(entries, Is(WasSuppressed)) + Count(entries, Is(Failed)) == |entries|
  {
    if entries != [] {
      OutcomesPartition(entries[..|entries| - 1]);
    }
  }

  datatype ResponseStatus = AllAccepted | Partial

  datatype SendResponse = SendResponse(status: ResponseStatus, entries: seq<TrackingEntry>)

  lemma {:induction false} NothingPersisted(entries: seq<TrackingEntry>, chance: nat -> Chance)
    requires Count(entries, Is(Failed)) == |entries|
    ensures Persisted(entries, chance) == []
  {
    if entries != [] {
      OutcomesPartition(entries[..|entries| - 1]);
      NothingPersisted(entries[..|entries| - 1], chance);
    }
  }

  /** The body of the loop: a suppressed or a queued email, or a failure entry. */
  method PersistRecipient(writer: SendPersistenceWriter, env: Envelope, d: Decision, c: Chance)
    returns (entry: TrackingEntry)
    modifies writer
    ensures (writer.db, entry) == SendOne(old(writer.db), env, d, c)
  {
    var email := EmailRow(c.trackingId, d.address, env.cc, env.bcc, env.content.body, Queued);
    if d.suppressed {
      email := email.(status := Suppressed);
      var ok := writer.CreateSuppressed(c.id, email, d.reason, c.faults);
      return TrackingEntry(d.address, c.trackingId, if ok then WasSuppressed else Failed);
    } else {
      email := email.(status := Queued);
      var ok := writer.CreateQueued(c.id, email, env.content.adapterId, c.faults);
      return TrackingEntry(d.address, c.trackingId, if ok then Accepted else Failed);
    }
  }

  /** Lines 278-383. `entries` are all tracking entries, which an error does not return. */
  method SendToRecipients(writer: SendPersistenceWriter, env: Envelope, to: seq<Decision>, chance: nat -> Chance)
    returns (r: Result<SendResponse, string>, ghost entries: seq<TrackingEntry>)
    modifies writer
    ensures (writer.db, entries) == SendAll(old(writer.db), env, to, chance)
    ensures r.Err? <==> Persisted(entries, chance) == []
    ensures r.Ok? ==> r.value.entries == entries
    ensures r.Ok? ==> (r.value.status == Partial <==> Count(entries, Is(Failed)) > 0)
  {
    var tracking := [];
    var failCount := 0;
    for i := 0 to |to|
      invariant (writer.db, tracking) == SendAll(old(writer.db), env, to[..i], chance)
      invariant failCount == Count(tracking, Is(Failed))
    {
      assert to[..i + 1][..i] == to[..i];
      var entry := PersistRecipient(writer, env, to[i], chance(i));
      CountAppend(tracking, entry, Is(Failed));
      if entry.outcome == Failed {
        failCount := failCount + 1;
      }
      tracking := tracking + [entry];
    }
    assert to[..|to|] == to;
    entries := tracking;
    OutcomesPartition(tracking);
    SendConserves(old(writer.db), env, to, chance);
    if failCount == |to| {
      NothingPersisted(tracking, chance);
      return Err("all recipients failed"), entries;
    }
    return Ok(SendResponse(if failCount > 0 then Partial else AllAccepted, tracking)), entries;
  }

  /** The three suppression levels a message is judged by. */
  datatype Levels = Levels(canon: Address -> Address, table: map<Address, string>, optOuts: set<Address>) {
    predicate Suppresses(a: Address) {
      Decide(canon, table, optOuts, a).suppressed
    }
  }

  function LevelsOf(evaluator: SuppressionBatchEvaluator): Levels {
    Levels(evaluator.canon, evaluator.store.table, evaluator.OptedOut())
  }

  /** What Send does with one effective message: judge it on its own, then persist. */
  function SendSingly(levels: Levels, db: Db, input: BatchInput, content: Content, chance: nat -> Chance)
    : (Db, seq<TrackingEntry>)
  {
    var v := Evaluated(levels.canon, levels.table, levels.optOuts, input);
    SendAll(db, Envelope(v.cc, v.bcc, content), v.to, chance)
  }

  // -------------------------------------------------------------------- the message

  datatype Template = Template(templateType: TemplateType, body: string)

  /** The uncached TemplateResolver.Resolve for one workspace and slug. */
  type TemplateResolver = Option<string> -> Result<Template, string>

  /** Merging injectors and rendering; None is a failure of either. */
  type Renderer = Template -> Option<string>

  /** The locale Send resolves with: the workspace default if its own is absent or empty. */
  function SingleLocale(locale: Option<string>, fallback: Option<string>): Option<string> {
    if (locale.None? || locale.value == "") && fallback.Some? && fallback.value != "" then fallback else locale
  }

  /** Template, rendering and policy for a locale: the effective message and its body. */
  function Prepare(
      ws: Workspace, normalize: Normalizer, resolve: TemplateResolver, render: Renderer, locale: Option<string>,
      request: BatchInput)
    : Result<(BatchInput, string), string>
  {
    match resolve(locale)
    case Err(e) => Err(e)
    case Ok(template) =>
      var body := render(template);
      if body.None? then Err("render")
      else
        match ApplyTestRecipientPolicy(ws, template.templateType, normalize, request)
        case Err(e) => Err(e)
        case Ok(effective) => Ok((effective, body.value))
  }

  /** Evaluation and recipient loop: lines 281-383. */
  method SendPrepared(
      evaluator: SuppressionBatchEvaluator, writer: SendPersistenceWriter, content: Content, effective: BatchInput,
      chance: nat -> Chance, storeOk: bool, ttsOk: bool)
    returns (r: Result<SendResponse, string>, ghost entries: seq<TrackingEntry>)
    modifies evaluator.Frame(), writer
    ensures if storeOk && (evaluator.tts != null ==> ttsOk) then
        && (writer.db, entries) == SendSingly(LevelsOf(evaluator), old(writer.db), effective, content, chance)
        && (r.Err? <==> Persisted(entries, chance) == [])
        && (r.Ok? ==> r.value.entries == entries && (r.value.status == Partial <==> Count(entries, Is(Failed)) > 0))
      else r.Err? && entries == [] && writer.db == old(writer.db)
  {
    entries := [];
    var evaluation, _, _ := evaluator.EvaluateForType(effective, storeOk, ttsOk);
    if evaluation.Err? {
      return Err(evaluation.error), entries;
    }
    var judged := evaluation.value.Contents();
    r, entries := SendToRecipients(writer, Envelope(judged.cc, judged.bcc, content), judged.to, chance);
  }

  /** Send, from the template on, once its adapter is settled: template, rendering,
      policy, evaluation, recipient loop. Nothing is written unless all recipients
      are judged. */
  method Send(
      ws: Workspace, normalize: Normalizer, resolve: TemplateResolver, render: Renderer,
      evaluator: SuppressionBatchEvaluator, writer: SendPersistenceWriter, adapterId: Uuid, locale: Option<string>,
      request: BatchInput, chance: nat -> Chance, storeOk: bool, ttsOk: bool)
    returns (r: Result<SendResponse, string>, ghost entries: seq<TrackingEntry>)
    modifies evaluator.Frame(), writer
    ensures var p := Prepare(ws, normalize, resolve, render, SingleLocale(locale, ws.defaultLocale), request);
      if p.Ok? && storeOk && (evaluator.tts != null ==> ttsOk) then
        && (writer.db, entries)
           == SendSingly(LevelsOf(evaluator), old(writer.db), p.value.0, Content(adapterId, p.value.1), chance)
        && (r.Err? <==> Persisted(entries, chance) == [])
        && (r.Ok? ==> r.value.entries == entries && (r.value.status == Partial <==> Count(entries, Is(Failed)) > 0))
      else r.Err? && entries == [] && writer.db == old(writer.db)
  {
    entries := [];
    var effectiveLocale := locale;
    if (locale.None? || locale.value == "") && ws.defaultLocale.Some? && ws.defaultLocale.value != "" {
      effectiveLocale := ws.defaultLocale;
    }
    var template := resolve(effectiveLocale);
    if template.Err? {
      return Err(template.error), entries;
    }
    var body := render(template.value);
    if body.None? {
      return Err("render"), entries;
    }
    var effective := ApplyTestRecipientPolicy(ws, template.value.templateType, normalize, request);
    if effective.Err? {
      return Err(effective.error), entries;
    }
    r, entries := SendPrepared(
      evaluator, writer, Content(adapterId, body.value), effective.value, chance, storeOk, ttsOk);
  }

  // ------------------------------------------------------------- what gets written

  /** Something stands against the address. */
  predicate IsAgainst(levels: Levels, a: Address) {
    var c := levels.canon(a);
    c != Address("") && (c in levels.table || c in levels.optOuts)
  }

  /** The email goes to `to`, with the unsuppressed of the copies, and is queued unless
      something stands against its recipient. */
  ghost predicate Carries(
      row: EmailRow, levels: Levels, to: Address, cc: seq<Address>, bcc: seq<Address>, body: string, trackingId: string)
  {
    && row.recipient == to && row.body == body && row.trackingId == trackingId
    && (row.status == Suppressed <==> IsAgainst(levels, to))
    && (forall a :: a in row.cc <==> a in cc && !IsAgainst(levels, a))
    && (forall a :: a in row.bcc <==> a in bcc && !IsAgainst(levels, a))
  }

  /** The email of one of the recipients. */
  ghost predicate IsDelivery(
      id: Uuid, row: EmailRow, levels: Levels, to: seq<Address>, cc: seq<Address>, bcc: seq<Address>, body: string,
      chance: nat -> Chance)
  {
    exists k :: 0 <= k < |to| && chance(k).id == id && Carries(row, levels, to[k], cc, bcc, body, chance(k).trackingId)
  }

  /** Every email new in the store belongs to one recipient and carries the message. */
  ghost predicate Delivers(
      db: Db, db': Db, levels: Levels, to: seq<Address>, cc: seq<Address>, bcc: seq<Address>, body: string,
      chance: nat -> Chance)
  {
    forall id | id in db'.emails && id !in db.emails ::
      IsDelivery(id, db'.emails[id], levels, to, cc, bcc, body, chance)
  }

  lemma {:induction false} RowCarries(levels: Levels, input: BatchInput, content: Content, k: nat, c: Chance)
    requires k < |input.to|
    ensures var v := Evaluated(levels.canon, levels.table, levels.optOuts, input);
      Carries(RowFor(Envelope(v.cc, v.bcc, content), v.to[k], c), levels, input.to[k], input.cc, input.bcc,
              content.body, c.trackingId)
  {
    forall a ensures a in Kept(levels.canon, levels.table, levels.optOuts, input.cc) <==> a in input.cc && !IsAgainst(levels, a) {
      KeptMember(levels.canon, levels.table, levels.optOuts, input.cc, a);
    }
    forall a ensures a in Kept(levels.canon, levels.table, levels.optOuts, input.bcc) <==> a in input.bcc && !IsAgainst(levels, a) {
      KeptMember(levels.canon, levels.table, levels.optOuts, input.bcc, a);
    }
  }

  lemma {:induction false} SinglyDelivers(levels: Levels, db: Db, input: BatchInput, content: Content, chance: nat -> Chance)
    ensures Delivers(
      db, SendSingly(levels, db, input, content, chance).0, levels, input.to, input.cc, input.bcc, content.body, chance)
  {
    var v := Evaluated(levels.canon, levels.table, levels.optOuts, input);
    var env := Envelope(v.cc, v.bcc, content);
    var (db', entries) := SendAll(db, env, v.to, chance);
    EntriesAreRows(db, env, v.to, chance);
    forall id | id in db'.emails && id !in db.emails
      ensures IsDelivery(id, db'.emails[id], levels, input.to, input.cc, input.bcc, content.body, chance)
    {
      var k :| 0 <= k < |v.to| && entries[k].outcome != Failed && chance(k).id == id;
      assert Wrote(db, db', env, v.to[k], chance(k));
      RowCarries(levels, input, content, k, chance(k));
    }
  }

  /** The template a send uses is the one resolved for its locale, and the body what
      rendering makes of it. */
  lemma {:induction false} PreparedFrom(
      ws: Workspace, normalize: Normalizer, resolve: TemplateResolver, render: Renderer, locale: Option<string>,
      request: BatchInput)
    ensures var p := Prepare(ws, normalize, resolve, render, locale, request);
      p.Ok? ==> resolve(locale).Ok? && render(resolve(locale).value) == Some(p.value.1)
  {
  }

  /** Outside a test workspace, Send writes to the recipients of the request only, each
      with the request's own copies, and never mixes CC and BCC. */
  lemma {:induction false} SendDeliversTheRequest(
      ws: Workspace, normalize: Normalizer, resolve: TemplateResolver, render: Renderer, locale: Option<string>,
      request: BatchInput, levels: Levels, db: Db, adapterId: Uuid, chance: nat -> Chance)
    requires !ws.isTest && Prepare(ws, normalize, resolve, render, locale, request).Ok?
    ensures var p := Prepare(ws, normalize, resolve, render, locale, request).value;
      Delivers(db, SendSingly(levels, db, p.0, Content(adapterId, p.1), chance).0, levels,
               request.to, request.cc, request.bcc, p.1, chance)
  {
    var p := Prepare(ws, normalize, resolve, render, locale, request).value;
    PolicySparesLiveWorkspaces(ws, resolve(locale).value.templateType, normalize, request);
    SinglyDelivers(levels, db, p.0, Content(adapterId, p.1), chance);
  }

  /** In a test workspace that does not append, every email goes to a configured
      recipient and to nobody else. */
  lemma {:induction false} TestMailStaysInside(
      ws: Workspace, normalize: Normalizer, resolve: TemplateResolver, render: Renderer, locale: Option<string>,
      request: BatchInput, configured: seq<Address>, levels: Levels, db: Db, adapterId: Uuid, chance: nat -> Chance)
    requires ws.isTest && Prepare(ws, normalize, resolve, render, locale, request).Ok?
    requires var tt := resolve(locale).value.templateType; Configures(ws, tt, configured) && !Appends(ws, tt)
    ensures var p := Prepare(ws, normalize, resolve, render, locale, request).value;
      var db' := SendSingly(levels, db, p.0, Content(adapterId, p.1), chance).0;
      forall id | id in db'.emails && id !in db.emails ::
        db'.emails[id].recipient in normalize(configured) && db'.emails[id].cc == [] && db'.emails[id].bcc == []
  {
    var p := Prepare(ws, normalize, resolve, render, locale, request).value;
    PolicyInTestWorkspace(ws, resolve(locale).value.templateType, normalize, configured, request);
    SinglyDelivers(levels, db, p.0, Content(adapterId, p.1), chance);
    var db' := SendSingly(levels, db, p.0, Content(adapterId, p.1), chance).0;
    forall id | id in db'.emails && id !in db.emails
      ensures db'.emails[id].recipient in normalize(configured) && db'.emails[id].cc == [] && db'.emails[id].bcc == []
    {
      assert IsDelivery(id, db'.emails[id], levels, p.0.to, p.0.cc, p.0.bcc, p.1, chance);
      var k :| 0 <= k < |p.0.to| && chance(k).id == id
        && Carries(db'.emails[id], levels, p.0.to[k], p.0.cc, p.0.bcc, p.1, chance(k).trackingId);
      NobodyIn(db'.emails[id].cc);
      NobodyIn(db'.emails[id].bcc);
    }
  }

  lemma {:induction false} NobodyIn(s: seq<Address>)
    ensures (forall a :: a !in s) ==> s == []
  {
    if s != [] {
      assert s[0] in s;
    }
  }

  predicate JobSays(job: SendJob, entry: TrackingEntry, c: Chance, adapterId: Uuid) {
    entry.outcome == Accepted && job == SendJob(c.id, c.trackingId, adapterId)
  }

  predicate EventSays(event: EmailEvent, d: Decision, entry: TrackingEntry, c: Chance) {
    match entry.outcome
    case Accepted => event == QueuedEvent(c.id)
    case WasSuppressed => event == SuppressedEvent(c.id, d.reason)
    case Failed => false
  }

  ghost predicate IsJob(job: SendJob, entries: seq<TrackingEntry>, adapterId: Uuid, chance: nat -> Chance) {
    exists k :: 0 <= k < |entries| && JobSays(job, entries[k], chance(k), adapterId)
  }

  ghost predicate IsEvent(event: EmailEvent, to: seq<Decision>, entries: seq<TrackingEntry>, chance: nat -> Chance)
    requires |entries| == |to|
  {
    exists k :: 0 <= k < |to| && EventSays(event, to[k], entries[k], chance(k))
  }

  /** The new jobs and events are those of the recipients that did not fail: a job
      carries the message's adapter, an event the reason of the verdict. */
  ghost predicate Logs(db: Db, db': Db, to: seq<Decision>, entries: seq<TrackingEntry>, adapterId: Uuid, chance: nat -> Chance) {
    && |entries| == |to| && db.jobs <= db'.jobs && db.events <= db'.events
    && (forall i | |db.jobs| <= i < |db'.jobs| :: IsJob(db'.jobs[i], entries, adapterId, chance))
    && (forall i | |db.events| <= i < |db'.events| :: IsEvent(db'.events[i], to, entries, chance))
  }

  lemma {:induction false} EntriesAreLogged(db: Db, env: Envelope, to: seq<Decision>, chance: nat -> Chance)
    ensures var (db', entries) := SendAll(db, env, to, chance); Logs(db, db', to, entries, env.content.adapterId, chance)
  {
    if to != [] {
      var n := |to| - 1;
      EntriesAreLogged(db, env, to[..n], chance);
      var (mid, front) := SendAll(db, env, to[..n], chance);
      var (db', entry) := SendOne(mid, env, to[n], chance(n));
      LogsOneMore(db, mid, db', to[..n], to[n], front, entry, env.content.adapterId, chance);
      assert to == to[..n] + [to[n]];
    }
  }

  lemma {:induction false} StillJob(job: SendJob, entries: seq<TrackingEntry>, entry: TrackingEntry, adapterId: Uuid, chance: nat -> Chance)
    requires IsJob(job, entries, adapterId, chance) || JobSays(job, entry, chance(|entries|), adapterId)
    ensures IsJob(job, entries + [entry], adapterId, chance)
  {
    var k :| 0 <= k < |entries| + 1 && JobSays(job, (entries + [entry])[k], chance(k), adapterId);
  }

  lemma {:induction false} StillEvent(
      event: EmailEvent, to: seq<Decision>, d: Decision, entries: seq<TrackingEntry>, entry: TrackingEntry, chance: nat -> Chance)
    requires |entries| == |to| && (IsEvent(event, to, entries, chance) || EventSays(event, d, entry, chance(|to|)))
    ensures IsEvent(event, to + [d], entries + [entry], chance)
  {
    var k :| 0 <= k < |to| + 1 && EventSays(event, (to + [d])[k], (entries + [entry])[k], chance(k));
  }

  lemma {:induction false} LogsOneMore(
      db: Db, mid: Db, db': Db, to: seq<Decision>, d: Decision, entries: seq<TrackingEntry>, entry: TrackingEntry,
      adapterId: Uuid, chance: nat -> Chance)
    requires Logs(db, mid, to, entries, adapterId, chance)
    requires mid.jobs <= db'.jobs && mid.events <= db'.events
    requires forall i | |mid.jobs| <= i < |db'.jobs| :: JobSays(db'.jobs[i], entry, chance(|to|), adapterId)
    requires forall i | |mid.events| <= i < |db'.events| :: EventSays(db'.events[i], d, entry, chance(|to|))
    ensures Logs(db, db', to + [d], entries + [entry], adapterId, chance)
  {
    forall i | |db.jobs| <= i < |db'.jobs| ensures IsJob(db'.jobs[i], entries + [entry], adapterId, chance) {
      assert i < |mid.jobs| ==> db'.jobs[i] == mid.jobs[i];
      StillJob(db'.jobs[i], entries, entry, adapterId, chance);
    }
    forall i | |db.events| <= i < |db'.events| ensures IsEvent(db'.events[i], to + [d], entries + [entry], chance) {
      assert i < |mid.events| ==> db'.events[i] == mid.events[i];
      StillEvent(db'.events[i], to, d, entries, entry, chance);
    }
  }

  // -------------------------------------------------------------- documented status

  /** Which statements a recipient's transaction runs is known beforehand. */
  predicate StatementsOk(d: Decision, f: TxFaults) {
    f.beginOk && f.createOk && (d.suppressed || f.enqueueOk) && f.eventOk && f.commitOk
  }

  ghost predicate FreshIds(db: Db, n: nat, chance: nat -> Chance) {
    && (forall i | 0 <= i < n :: chance(i).id !in db.emails)
    && (forall i, j | 0 <= i < j < n :: chance(i).id != chance(j).id)
  }

  function Foretold(d: Decision, c: Chance): Outcome {
    if !StatementsOk(d, c.faults) then Failed else if d.suppressed then WasSuppressed else Accepted
  }

  /** With fresh ids every outcome is known before the loop starts. */
  lemma {:induction false} OutcomesAreForetold(db: Db, env: Envelope, to: seq<Decision>, chance: nat -> Chance, k: nat)
    requires FreshIds(db, |to|, chance) && k < |to|
    ensures SendAll(db, env, to, chance).1[k].outcome == Foretold(to[k], chance(k))
  {
    var n := |to| - 1;
    if k < n {
      OutcomesAreForetold(db, env, to[..n], chance, k);
    } else {
      var (mid, front) := SendAll(db, env, to[..n], chance);
      EntriesAreRows(db, env, to[..n], chance);
      assert chance(n).id !in mid.emails;
    }
  }

  /** docs/EMAIL_FLOWS.md: accepted when all recipients were queued; a response that
      is neither that nor an error is partial. */
  function DocumentedStatus(entries: seq<TrackingEntry>): ResponseStatus {
    if Count(entries, Is(Accepted)) == |entries| then AllAccepted else Partial
  }

  /** The status of the code is the documented one exactly when no entry was
      suppressed or some entry failed. */
  lemma {:induction false} StatusIsDocumentedIff(entries: seq<TrackingEntry>, status: ResponseStatus)
    requires status == Partial <==> Count(entries, Is(Failed)) > 0
    ensures status == DocumentedStatus(entries) <==>
      Count(entries, Is(WasSuppressed)) == 0 || Count(entries, Is(Failed)) > 0
  {
    OutcomesPartition(entries);
  }

  /** Said before the loop starts: exactly when no recipient is suppressed or the
      statements of some recipient fail. */
  lemma {:induction false} SendStatusIsDocumentedIff(
      db: Db, env: Envelope, to: seq<Decision>, chance: nat -> Chance, status: ResponseStatus)
    requires FreshIds(db, |to|, chance)
    requires status == Partial <==> Count(SendAll(db, env, to, chance).1, Is(Failed)) > 0
    ensures status == DocumentedStatus(SendAll(db, env, to, chance).1) <==>
      || (forall k | 0 <= k < |to| :: !to[k].suppressed)
      || (exists k :: 0 <= k < |to| && !StatementsOk(to[k], chance(k).faults))
  {
    var entries := SendAll(db, env, to, chance).1;
    StatusIsDocumentedIff(entries, status);
    forall k | 0 <= k < |to| ensures entries[k].outcome == Foretold(to[k], chance(k)) {
      OutcomesAreForetold(db, env, to, chance, k);
    }
    CountSome(entries, Is(Failed));
    CountSome(entries, Is(WasSuppressed));
    if exists k :: 0 <= k < |to| && !StatementsOk(to[k], chance(k).faults) {
      var k :| 0 <= k < |to| && !StatementsOk(to[k], chance(k).faults);
      assert Is(Failed)(entries[k]);
    } else if exists k :: 0 <= k < |to| && to[k].suppressed {
      var k :| 0 <= k < |to| && to[k].suppressed;
      assert Is(WasSuppressed)(entries[k]);
    }
  }

  const ALL_OK := TxFaults(true, true, true, true, true)

  /** Nothing fails. */
  function NoTrouble(k: nat): Chance {
    Chance(k, "t", ALL_OK)
  }

  const NO_DB := Db(map[], [], [])

  const ANN_AND_BOB := [
    Decision(Address("ann@example.com"), false, ""), Decision(Address("bob@example.com"), true, "hard_bounce")]

  /** One recipient queued and one suppressed, nothing failing: called accepted,
      documented as partial. */
  lemma {:induction false} SuppressedSendIsCalledAccepted(env: Envelope, status: ResponseStatus)
    requires status == Partial <==> Count(SendAll(NO_DB, env, ANN_AND_BOB, NoTrouble).1, Is(Failed)) > 0
    ensures status == AllAccepted && DocumentedStatus(SendAll(NO_DB, env, ANN_AND_BOB, NoTrouble).1) == Partial
  {
    var entries := SendAll(NO_DB, env, ANN_AND_BOB, NoTrouble).1;
    SendStatusIsDocumentedIff(NO_DB, env, ANN_AND_BOB, NoTrouble, status);
    assert ANN_AND_BOB[1].suppressed;
    forall k | 0 <= k < |entries| ensures !Is(Failed)(entries[k]) {
      OutcomesAreForetold(NO_DB, env, ANN_AND_BOB, NoTrouble, k);
    }
    CountNone(entries, Is(Failed));
  }
}
