/** The run of a batch: template cache by locale, one plan per item, and the
    accounting of the response (internal/service/send_batch.go). */
module SendingBatchRun {
  import opened Common
  import opened Suppression
  import opened SendPersistence
  import opened Sending
  import opened SendingBatch

  // -------------------------------------------------------------- template cache

  /** strings.TrimSpace(s) == "", which holds of the empty string at least. */
  type Blankness = f: string -> bool | f("") witness (s: string) => s == ""

  predicate Usable(blank: Blankness, locale: Option<string>) {
    locale.Some? && !blank(locale.value)
  }

  /** The item's locale if not blank, else the workspace default if not blank, else none. */
  function EffectiveLocale(blank: Blankness, locale: Option<string>, fallback: Option<string>): Option<string> {
    if Usable(blank, locale) then locale else if Usable(blank, fallback) then fallback else None
  }

  function EffectiveLocaleKey(blank: Blankness, locale: Option<string>, fallback: Option<string>): string {
    EffectiveLocale(blank, locale, fallback).GetOr("")
  }

  class TemplateCache {
    const blank: Blankness
    const resolve: TemplateResolver
    const workspaceDefault: Option<string>
    var entries: map<string, Template>

    /** Every entry is what the resolver returns for its key. The pre-seeded ""
        entry is exempt when it was resolved with a default: it is never read. */
    ghost predicate Valid()
      reads this
    {
      && (forall k | k in entries && k != "" :: resolve(Some(k)) == Ok(entries[k]))
      && "" in entries
      && (!Usable(blank, workspaceDefault) ==> resolve(None) == Ok(entries[""]))
    }

    /** resolveSendBatchContext, once the base template is resolved. */
    constructor (blank: Blankness, resolve: TemplateResolver, workspaceDefault: Option<string>, base: Template)
      requires resolve(EffectiveLocale(blank, None, workspaceDefault)) == Ok(base)
      ensures Valid()
      ensures this.blank == blank && this.resolve == resolve && this.workspaceDefault == workspaceDefault
    {
      this.blank, this.resolve, this.workspaceDefault := blank, resolve, workspaceDefault;
      var seeded := map["" := base];
      var key := EffectiveLocaleKey(blank, None, workspaceDefault);
      if key != "" {
        seeded := seeded[key := base];
      }
      entries := seeded;
    }

    /** templateForLocale returns what the uncached resolver returns for the effective locale. */
    method TemplateForLocale(locale: Option<string>) returns (r: Result<Template, string>)
      requires Valid()
      modifies this`entries
      ensures Valid()
      ensures r == resolve(EffectiveLocale(blank, locale, workspaceDefault))
    {
      var key := EffectiveLocaleKey(blank, locale, workspaceDefault);
      if key in entries {
        return Ok(entries[key]);
      }
      var effective := locale;
      if effective.None? || blank(effective.value) {
        effective := workspaceDefault;
      }
      r := resolve(effective);
      if r.Ok? {
        entries := entries[key := r.value];
      }
    }
  }

  /** The item's locale is not blank, or it is absent or empty with a default that is
      not blank, or it is absent with a default that is absent or empty. */
  predicate SameLocale(blank: Blankness, locale: Option<string>, fallback: Option<string>) {
    || Usable(blank, locale)
    || ((locale.None? || locale.value == "") && Usable(blank, fallback))
    || (locale.None? && (fallback.None? || fallback.value == ""))
  }

  /** Exactly then the batch resolves the locale that Send resolves; elsewhere Send
      compares with "" (internal/service/send.go:207-210) where the batch trims spaces. */
  lemma {:induction false} LocalesAgreeIff(blank: Blankness, locale: Option<string>, fallback: Option<string>)
    ensures EffectiveLocale(blank, locale, fallback) == SingleLocale(locale, fallback) <==> SameLocale(blank, locale, fallback)
  {
  }

  /** A locale of one space: the batch resolves without a locale, Send with a space. */
  lemma {:induction false} BlankLocaleDiffers(blank: Blankness)
    requires blank(" ")
    ensures EffectiveLocale(blank, Some(" "), None) == None && SingleLocale(Some(" "), None) == Some(" ")
  {
  }

  // --------------------------------------------------------------------- one item

  datatype ItemStatus = ItemAccepted | ItemSuppressed | ItemPartial | ItemFailed

  datatype ItemResult = ItemResult(index: nat, to: Address, trackingId: Option<string>, status: ItemStatus)

  /** The fields of sendPlanOutcome that survive one loop over recipients. */
  datatype PlanOutcome = PlanOutcome(failCount: nat, first: Option<TrackingEntry>)

  function StatusOfOutcome(o: Outcome): ItemStatus {
    match o
    case Accepted => ItemAccepted
    case WasSuppressed => ItemSuppressed
    case Failed => ItemFailed
  }

  /** finalizeSendPlanResult; None is its error. */
  function Finalize(recipients: nat, o: PlanOutcome): Option<(ItemStatus, Option<string>)> {
    var tracking := if o.first.Some? then Some(o.first.value.trackingId) else None;
    if o.failCount == recipients then None
    else if o.failCount > 0 then Some((ItemPartial, tracking))
    else if o.first.Some? then Some((StatusOfOutcome(o.first.value.outcome), tracking))
    else Some((ItemAccepted, None))
  }

  function PersistedCount(entries: seq<TrackingEntry>): nat {
    Count(entries, Is(Accepted)) + Count(entries, Is(WasSuppressed))
  }

  /** What the status of an item says of the work done for it. */
  ghost predicate Reports(status: ItemStatus, entries: seq<TrackingEntry>) {
    match status
    case ItemFailed => PersistedCount(entries) == 0
    case ItemPartial => PersistedCount(entries) > 0 && Count(entries, Is(Failed)) > 0
    case ItemAccepted => PersistedCount(entries) > 0 && Count(entries, Is(Failed)) == 0 && entries[0].outcome == Accepted
    case ItemSuppressed => PersistedCount(entries) > 0 && Count(entries, Is(Failed)) == 0 && entries[0].outcome == WasSuppressed
  }

  /** An item not reported as failed carries the tracking id of its first recipient. */
  ghost predicate Tracks(r: ItemResult, entries: seq<TrackingEntry>) {
    r.trackingId == if r.status == ItemFailed || entries == [] then None else Some(entries[0].trackingId)
  }

  function OutcomeOf(entries: seq<TrackingEntry>): PlanOutcome {
    PlanOutcome(Count(entries, Is(Failed)), if entries == [] then None else Some(entries[0]))
  }

  lemma {:induction false} FinalizeReports(entries: seq<TrackingEntry>)
    ensures match Finalize(|entries|, OutcomeOf(entries))
      case None => Reports(ItemFailed, entries)
      case Some(p) => p.0 != ItemFailed && Reports(p.0, entries) && p.1 == Some(entries[0].trackingId)
  {
    OutcomesPartition(entries);
    if entries != [] && entries[0].outcome == Failed {
      CountOne(entries, 0, Is(Failed));
    }
  }

  /** What one turn of the loop does to the outcome. */
  function Noting(o: PlanOutcome, entry: TrackingEntry): PlanOutcome {
    PlanOutcome(o.failCount + if entry.outcome == Failed then 1 else 0, if o.first.None? then Some(entry) else o.first)
  }

  lemma {:induction false} OutcomeGrows(entries: seq<TrackingEntry>, entry: TrackingEntry)
    ensures OutcomeOf(entries + [entry]) == Noting(OutcomeOf(entries), entry)
  {
    CountAppend(entries, entry, Is(Failed));
  }

  /** The body of the loop over the recipients of one item. */
  method ProcessRecipient(
      writer: SendPersistenceWriter, statuses: Statuses, env: Envelope, to: Address, c: Chance, before: PlanOutcome)
    returns (outcome: PlanOutcome, ghost entry: TrackingEntry)
    modifies writer
    ensures var st := StatusOf(statuses, to);
      (writer.db, entry) == SendOne(old(writer.db), env, Decision(to, st.suppressed, st.reason), c)
    ensures outcome == Noting(before, entry)
  {
    var status := StatusOf(statuses, to);
    var done := PersistRecipient(writer, env, Decision(to, status.suppressed, status.reason), c);
    entry, outcome := done, before;
    if done.outcome == Failed {
      outcome := outcome.(failCount := outcome.failCount + 1);
    }
    if outcome.first.None? {
      outcome := outcome.(first := Some(done));
    }
  }

  /** processSendPlanRecipients. */
  method ProcessRecipients(
      writer: SendPersistenceWriter, statuses: Statuses, input: BatchInput, content: Content, chance: nat -> Chance)
    returns (outcome: PlanOutcome, ghost entries: seq<TrackingEntry>)
    modifies writer
    ensures (writer.db, entries) == SendFromTable(statuses, old(writer.db), input, content, chance)
    ensures outcome == OutcomeOf(entries)
  {
    var cc := FilterSuppressedWithStatuses(input.cc, statuses);
    var bcc := FilterSuppressedWithStatuses(input.bcc, statuses);
    var env := Envelope(cc, bcc, content);
    ghost var decisions := FromStatuses(input.to, statuses);
    outcome := PlanOutcome(0, None);
    entries := [];
    for i := 0 to |input.to|
      invariant (writer.db, entries) == SendAll(old(writer.db), env, decisions[..i], chance)
      invariant outcome == OutcomeOf(entries)
    {
      assert decisions[..i + 1][..i] == decisions[..i];
      ghost var entry;
      outcome, entry := ProcessRecipient(writer, statuses, env, input.to[i], chance(i), outcome);
      OutcomeGrows(entries, entry);
      entries := entries + [entry];
    }
    assert decisions[..|input.to|] == decisions;
  }

  /** What its variables and injectors make of a template, and what chance contributes. */
  datatype ItemLuck = ItemLuck(render: Renderer, chance: nat -> Chance)

  /** The batch's fixed surroundings. */
  datatype Setting = Setting(
    ws: Workspace, templateType: TemplateType, normalize: Normalizer, adapterId: Uuid, levels: Levels,
    blank: Blankness, resolve: TemplateResolver)
  {
    /** The resolver picks the type of the slug before it looks at the locale
        (internal/resolution/template_resolver.go:73-82). */
    ghost predicate OneType() {
      forall l :: resolve(l).Ok? ==> resolve(l).value.templateType == templateType
    }

    function Effective(item: Item): Result<BatchInput, string> {
      ApplyTestRecipientPolicy(ws, templateType, normalize, InputOf(item))
    }

    /** The item was handled as a send with this locale: untouched if it cannot be
        prepared, else the entries and, up to suppression reasons, the store of Send. */
    ghost predicate HandledWith(
      locale: Option<string>, db: Db, db': Db, entries: seq<TrackingEntry>, item: Item, luck: ItemLuck)
    {
      match Prepare(ws, normalize, resolve, luck.render, locale, InputOf(item))
      case Err(_) => entries == [] && db' == db
      case Ok(p) =>
        var single := SendSingly(levels, db, p.0, Content(adapterId, p.1), luck.chance);
        entries == single.1 && WithoutReasons(db') == WithoutReasons(single.0)
    }

    /** With its effective locale; and where both resolve the same locale this is
        what Send alone does with the item, template included. */
    ghost predicate HandledAsSingle(db: Db, db': Db, entries: seq<TrackingEntry>, item: Item, luck: ItemLuck) {
      && HandledWith(EffectiveLocale(blank, item.locale, ws.defaultLocale), db, db', entries, item, luck)
      && (SameLocale(blank, item.locale, ws.defaultLocale) ==>
            HandledWith(SingleLocale(item.locale, ws.defaultLocale), db, db', entries, item, luck))
    }
  }

  lemma {:induction false} SameEmails(db: Db, db': Db)
    requires WithoutReasons(db) == WithoutReasons(db')
    ensures db.emails == db'.emails
  {
    assert WithoutReasons(db).emails == db.emails && WithoutReasons(db').emails == db'.emails;
  }

  /** Outside a test workspace, an item's email goes to its recipient with its copies,
      CC as CC and BCC as BCC, and carries the template resolved for the locale. */
  lemma {:induction false} ItemIsDelivered(
      s: Setting, locale: Option<string>, db: Db, db': Db, entries: seq<TrackingEntry>, item: Item, luck: ItemLuck, id: Uuid)
    requires !s.ws.isTest && s.HandledWith(locale, db, db', entries, item, luck)
    requires id in db'.emails && id !in db.emails
    ensures s.resolve(locale).Ok? && luck.render(s.resolve(locale).value).Some?
    ensures id == luck.chance(0).id
    ensures Carries(db'.emails[id], s.levels, item.to, item.cc, item.bcc,
      luck.render(s.resolve(locale).value).value, luck.chance(0).trackingId)
  {
    var request := BatchInput([item.to], item.cc, item.bcc);
    assert request == InputOf(item);
    PreparedFrom(s.ws, s.normalize, s.resolve, luck.render, locale, request);
    var p := Prepare(s.ws, s.normalize, s.resolve, luck.render, locale, request).value;
    var single := SendSingly(s.levels, db, p.0, Content(s.adapterId, p.1), luck.chance);
    SendDeliversTheRequest(
      s.ws, s.normalize, s.resolve, luck.render, locale, request, s.levels, db, s.adapterId, luck.chance);
    SameEmails(db', single.0);
    assert IsDelivery(
      id, db'.emails[id], s.levels, request.to, request.cc, request.bcc, p.1, luck.chance);
    var k :| 0 <= k < |request.to| && luck.chance(k).id == id
      && Carries(db'.emails[id], s.levels, request.to[k], item.cc, item.bcc, p.1, luck.chance(k).trackingId);
    assert k == 0;
  }

  /** In a test workspace that does not append, an item's emails go to configured
      recipients and to nobody else. */
  lemma {:induction false} TestItemStaysInside(
      s: Setting, locale: Option<string>, db: Db, db': Db, entries: seq<TrackingEntry>, item: Item, luck: ItemLuck,
      configured: seq<Address>, id: Uuid)
    requires s.ws.isTest && s.OneType() && s.HandledWith(locale, db, db', entries, item, luck)
    requires Configures(s.ws, s.templateType, configured) && !Appends(s.ws, s.templateType)
    requires id in db'.emails && id !in db.emails
    ensures db'.emails[id].recipient in s.normalize(configured) && db'.emails[id].cc == [] && db'.emails[id].bcc == []
  {
    var p := Prepare(s.ws, s.normalize, s.resolve, luck.render, locale, InputOf(item)).value;
    TestMailStaysInside(
      s.ws, s.normalize, s.resolve, luck.render, locale, InputOf(item), configured, s.levels, db, s.adapterId, luck.chance);
    SameEmails(db', SendSingly(s.levels, db, p.0, Content(s.adapterId, p.1), luck.chance).0);
  }

  /** The cache belongs to this setting and answers as its resolver does. */
  ghost predicate CacheFor(s: Setting, cache: TemplateCache)
    reads cache
  {
    cache.Valid() && cache.blank == s.blank && cache.resolve == s.resolve && cache.workspaceDefault == s.ws.defaultLocale
  }

  /** executeSendPlan. */
  method ExecuteSendPlan(
      s: Setting, ghost covered: set<Address>, cache: TemplateCache, writer: SendPersistenceWriter, statuses: Statuses,
      index: nat, item: Item, luck: ItemLuck)
    returns (result: ItemResult, ghost entries: seq<TrackingEntry>)
    requires CacheFor(s, cache) && s.OneType() && Primed(s.levels, covered, statuses)
    requires s.Effective(item).Ok? ==> Elements(Recipients(s.Effective(item).value)) <= covered
    modifies cache`entries, writer
    ensures CacheFor(s, cache)
    ensures s.HandledAsSingle(old(writer.db), writer.db, entries, item, luck)
    ensures InStep(old(writer.db)) ==> InStep(writer.db)
    ensures |writer.db.emails| == |old(writer.db).emails| + PersistedCount(entries)
    ensures result.index == index && result.to == item.to
    ensures Reports(result.status, entries) && Tracks(result, entries)
  {
    entries := [];
    result := ItemResult(index, item.to, None, ItemFailed);
    var template := cache.TemplateForLocale(item.locale);
    LocalesAgreeIff(s.blank, item.locale, s.ws.defaultLocale);
    if template.Err? {
      return;
    }
    var body := luck.render(template.value);
    if body.None? {
      return;
    }
    var effective := ApplyTestRecipientPolicy(s.ws, template.value.templateType, s.normalize, InputOf(item));
    if effective.Err? {
      return;
    }
    var outcome;
    var content := Content(s.adapterId, body.value);
    outcome, entries := ProcessRecipients(writer, statuses, effective.value, content, luck.chance);
    BatchRefinesSingle(s.levels, covered, statuses, old(writer.db), effective.value, content, luck.chance);
    FromTableKeeps(statuses, old(writer.db), effective.value, content, luck.chance);
    FinalizeReports(entries);
    var final := Finalize(|effective.value.to|, outcome);
    if final.None? {
      return;
    }
    result := result.(status := final.value.0, trackingId := final.value.1);
  }

  lemma {:induction false} FromTableKeeps(statuses: Statuses, db: Db, input: BatchInput, content: Content, chance: nat -> Chance)
    ensures var (db', entries) := SendFromTable(statuses, db, input, content, chance);
      && (InStep(db) ==> InStep(db'))
      && |db'.emails| == |db.emails| + PersistedCount(entries)
      && |entries| == |input.to|
  {
    var env := Envelope(Unflagged(input.cc, statuses), Unflagged(input.bcc, statuses), content);
    var to := FromStatuses(input.to, statuses);
    if InStep(db) {
      SendKeepsInStep(db, env, to, chance);
    }
    SendConserves(db, env, to, chance);
    GrewCounts(db, SendAll(db, env, to, chance).0, Persisted(SendAll(db, env, to, chance).1, chance),
      Count(SendAll(db, env, to, chance).1, Is(Accepted)), Count(SendAll(db, env, to, chance).1, Is(WasSuppressed)));
  }

  lemma {:induction false} GrewCounts(db: Db, db': Db, ids: seq<Uuid>, a: nat, s: nat)
    requires Grew(db, db', ids, a, s)
    ensures |db'.emails| == |db.emails| + a + s
  {
    DistinctCount(ids);
    assert |db'.emails.Keys| == |db.emails.Keys| + |Elements(ids)|;
  }

  lemma {:induction false} DistinctCount(ids: seq<Uuid>)
    requires NoDuplicates(ids)
    ensures |Elements(ids)| == |ids|
  {
    if ids != [] {
      var front, last := ids[..|ids| - 1], ids[|ids| - 1];
      DistinctCount(front);
      assert ids == front + [last];
      ElementsOfAppend(front, [last]);
      assert last !in Elements(front);
      assert Elements(ids) == Elements(front) + {last};
    }
  }

  /** The first entry is made in the store the loop starts from. */
  lemma {:induction false} FirstEntry(db: Db, env: Envelope, to: seq<Decision>, chance: nat -> Chance)
    requires to != []
    ensures SendAll(db, env, to, chance).1[0] == SendOne(db, env, to[0], chance(0)).1
  {
    var n := |to| - 1;
    if n > 0 {
      FirstEntry(db, env, to[..n], chance);
    }
  }

  /** The guard of the first write, in the store before the item. */
  predicate FirstWriteOk(statuses: Statuses, db: Db, to: seq<Address>, chance: nat -> Chance)
    requires to != []
  {
    if StatusOf(statuses, to[0]).suppressed then SuppressedOk(db, chance(0).id, chance(0).faults)
    else QueuedOk(db, chance(0).id, chance(0).faults)
  }

  /** The tracking id an item reports leads to an email exactly when its first write
      succeeds: a partial item may report an id nobody can follow. */
  lemma {:induction false} ReportedIdIsTrackableIff(
      statuses: Statuses, db: Db, input: BatchInput, content: Content, chance: nat -> Chance, r: ItemResult)
    requires forall i, j | 0 <= i < j < |input.to| :: chance(i).trackingId != chance(j).trackingId
    requires var entries := SendFromTable(statuses, db, input, content, chance).1;
      Reports(r.status, entries) && Tracks(r, entries) && r.trackingId.Some?
    ensures input.to != []
    ensures Trackable(db, SendFromTable(statuses, db, input, content, chance).0, r.trackingId.value) <==>
      FirstWriteOk(statuses, db, input.to, chance)
  {
    var env := Envelope(Unflagged(input.cc, statuses), Unflagged(input.bcc, statuses), content);
    var to := FromStatuses(input.to, statuses);
    TrackableIff(db, env, to, chance, 0);
    FirstEntry(db, env, to, chance);
  }

  const COMMIT_FAILS := TxFaults(true, true, true, true, false)

  /** The first commit fails and nothing else. */
  function FirstFails(k: nat): Chance {
    if k == 0 then Chance(0, "first", COMMIT_FAILS) else Chance(1, "later", ALL_OK)
  }

  /** An item with a recipient and, appended by the test policy, a second one. The
      first write fails: the item is partial and its id belongs to no email. */
  lemma {:induction false} PartialItemLeadsNowhere(content: Content, r: ItemResult, a: Address, b: Address)
    requires var entries := SendFromTable(map[], NO_DB, BatchInput([a, b], [], []), content, FirstFails).1;
      Reports(r.status, entries) && Tracks(r, entries)
    ensures r.status == ItemPartial && r.trackingId == Some("first")
    ensures !Trackable(NO_DB, SendFromTable(map[], NO_DB, BatchInput([a, b], [], []), content, FirstFails).0, "first")
  {
    var input, env := BatchInput([a, b], [], []), Envelope([], [], content);
    var to := FromStatuses(input.to, map[]);
    var entries := SendFromTable(map[], NO_DB, input, content, FirstFails).1;
    OutcomesAreForetold(NO_DB, env, to, FirstFails, 0);
    OutcomesAreForetold(NO_DB, env, to, FirstFails, 1);
    EntriesReportRecipients(NO_DB, env, to, FirstFails, 0);
    CountOne(entries, 0, Is(Failed));
    CountOne(entries, 1, Is(Accepted));
    TrackableIff(NO_DB, env, to, FirstFails, 0);
  }

  // -------------------------------------------------------------------- the batch

  datatype BatchStatus = BatchAccepted | BatchPartial | BatchFailed

  datatype BatchResponse = BatchResponse(
    status: BatchStatus, items: seq<ItemResult>, counters: Counters)

  function HasStatus(st: ItemStatus): ItemResult -> bool {
    (r: ItemResult) => r.status == st
  }

  function TotalPersisted(work: seq<seq<TrackingEntry>>): nat {
    if work == [] then 0 else TotalPersisted(work[..|work| - 1]) + PersistedCount(work[|work| - 1])
  }

  datatype Counters = Counters(accepted: nat, suppressed: nat, failed: nat, fullyFailed: nat)

  /** The counters are those of the item statuses, and partition the items. */
  ghost predicate Accounted(items: seq<ItemResult>, n: Counters) {
    && n.accepted == Count(items, HasStatus(ItemAccepted))
    && n.suppressed == Count(items, HasStatus(ItemSuppressed))
    && n.fullyFailed == Count(items, HasStatus(ItemFailed))
    && n.failed == n.fullyFailed + Count(items, HasStatus(ItemPartial))
    && n.accepted + n.suppressed + n.failed == |items|
  }

  /** The switch over the status of one result. */
  method CountResult(ghost items: seq<ItemResult>, n: Counters, r: ItemResult) returns (n': Counters)
    requires Accounted(items, n)
    ensures Accounted(items + [r], n')
  {
    CountAppend(items, r, HasStatus(ItemAccepted));
    CountAppend(items, r, HasStatus(ItemSuppressed));
    CountAppend(items, r, HasStatus(ItemFailed));
    CountAppend(items, r, HasStatus(ItemPartial));
    match r.status {
      case ItemAccepted => n' := n.(accepted := n.accepted + 1);
      case ItemSuppressed => n' := n.(suppressed := n.suppressed + 1);
      case ItemFailed => n' := n.(failed := n.failed + 1, fullyFailed := n.fullyFailed + 1);
      case ItemPartial => n' := n.(failed := n.failed + 1);
    }
  }

  /** Item i reports at position i on the work done for it. */
  ghost predicate ItemsReport(requests: seq<Item>, items: seq<ItemResult>, work: seq<seq<TrackingEntry>>) {
    && |items| == |work| <= |requests|
    && forall i | 0 <= i < |items| ::
         items[i].index == i && items[i].to == requests[i].to && Reports(items[i].status, work[i]) && Tracks(items[i], work[i])
  }

  ghost predicate SomethingFailed(entries: seq<TrackingEntry>) {
    PersistedCount(entries) == 0 || Count(entries, Is(Failed)) > 0
  }

  /** What the overall status says of all the work. */
  ghost predicate OverallReports(status: BatchStatus, work: seq<seq<TrackingEntry>>) {
    match status
    case BatchFailed => work != [] && forall i | 0 <= i < |work| :: PersistedCount(work[i]) == 0
    case BatchPartial =>
      && (exists i :: 0 <= i < |work| && PersistedCount(work[i]) > 0)
      && (exists i :: 0 <= i < |work| && SomethingFailed(work[i]))
    case BatchAccepted => forall i | 0 <= i < |work| :: !SomethingFailed(work[i])
  }

  function Overall(items: nat, n: Counters): BatchStatus {
    if n.fullyFailed == items && items > 0 then BatchFailed else if n.failed > 0 then BatchPartial else BatchAccepted
  }

  lemma {:induction false} OverallIsRight(requests: seq<Item>, items: seq<ItemResult>, work: seq<seq<TrackingEntry>>, n: Counters)
    requires ItemsReport(requests, items, work) && Accounted(items, n)
    ensures OverallReports(Overall(|items|, n), work)
  {
    CountAll(items, HasStatus(ItemFailed));
    CountSome(items, HasStatus(ItemFailed));
    CountSome(items, HasStatus(ItemPartial));
    forall i | 0 <= i < |items|
      ensures PersistedCount(work[i]) == 0 <==> items[i].status == ItemFailed
      ensures SomethingFailed(work[i]) <==> items[i].status in {ItemFailed, ItemPartial}
    {
      assert Reports(items[i].status, work[i]);
    }
    if n.fullyFailed < |items| {
      var i :| 0 <= i < |items| && !HasStatus(ItemFailed)(items[i]);
      assert PersistedCount(work[i]) > 0;
    }
  }

  /** The first |work| items were handled one after the other, each as Send would
      have handled it in the store it found. `states` are the stores in between. */
  ghost predicate HandledInTurn(
      s: Setting, items: seq<Item>, luck: nat -> ItemLuck, start: Db, end: Db,
      work: seq<seq<TrackingEntry>>, states: seq<Db>)
  {
    && |work| <= |items| && |states| == |work| + 1
    && states[0] == start && states[|work|] == end
    && (forall j | 0 <= j < |work| :: s.HandledAsSingle(states[j], states[j + 1], work[j], items[j], luck(j)))
    && (InStep(start) ==> InStep(end))
    && |end.emails| == |start.emails| + TotalPersisted(work)
  }

  lemma {:induction false} HandleOneMore(
      s: Setting, items: seq<Item>, luck: nat -> ItemLuck, start: Db, mid: Db, end: Db,
      work: seq<seq<TrackingEntry>>, states: seq<Db>, entries: seq<TrackingEntry>)
    requires HandledInTurn(s, items, luck, start, mid, work, states) && |work| < |items|
    requires s.HandledAsSingle(mid, end, entries, items[|work|], luck(|work|))
    requires InStep(mid) ==> InStep(end)
    requires |end.emails| == |mid.emails| + PersistedCount(entries)
    ensures HandledInTurn(s, items, luck, start, end, work + [entries], states + [end])
  {
    var work', states' := work + [entries], states + [end];
    assert work'[..|work|] == work;
    forall j | 0 <= j < |work'| ensures s.HandledAsSingle(states'[j], states'[j + 1], work'[j], items[j], luck(j)) {
      if j < |work| {
        assert s.HandledAsSingle(states[j], states[j + 1], work[j], items[j], luck(j));
      }
    }
  }

  lemma {:induction false} ItemsReportOneMore(
      requests: seq<Item>, items: seq<ItemResult>, work: seq<seq<TrackingEntry>>, r: ItemResult, entries: seq<TrackingEntry>)
    requires ItemsReport(requests, items, work) && |items| < |requests|
    requires r.index == |items| && r.to == requests[|items|].to && Reports(r.status, entries) && Tracks(r, entries)
    ensures ItemsReport(requests, items + [r], work + [entries])
  {
  }

  /** The table was primed with the effective recipients of every item. */
  ghost predicate PrimedFor(s: Setting, items: seq<Item>, covered: set<Address>, statuses: Statuses) {
    && Primed(s.levels, covered, statuses)
    && forall i | 0 <= i < |items| && s.Effective(items[i]).Ok? ::
         Elements(Recipients(s.Effective(items[i]).value)) <= covered
  }

  /** The item loop of SendBatch. */
  method RunItems(
      s: Setting, ghost covered: set<Address>, cache: TemplateCache, writer: SendPersistenceWriter, statuses: Statuses,
      items: seq<Item>, luck: nat -> ItemLuck)
    returns (resp: BatchResponse, ghost work: seq<seq<TrackingEntry>>, ghost states: seq<Db>)
    requires CacheFor(s, cache) && s.OneType() && PrimedFor(s, items, covered, statuses)
    modifies cache`entries, writer
    ensures |resp.items| == |work| == |items|
    ensures HandledInTurn(s, items, luck, old(writer.db), writer.db, work, states)
    ensures ItemsReport(items, resp.items, work)
    ensures Accounted(resp.items, resp.counters)
    ensures OverallReports(resp.status, work)
  {
    var results: seq<ItemResult>, counters := [], Counters(0, 0, 0, 0);
    work, states := [], [writer.db];
    for i := 0 to |items|
      invariant CacheFor(s, cache) && |results| == |work| == i
      invariant HandledInTurn(s, items, luck, old(writer.db), writer.db, work, states)
      invariant ItemsReport(items, results, work)
      invariant Accounted(results, counters)
    {
      ghost var mid := writer.db;
      assert s.Effective(items[i]).Ok? ==> Elements(Recipients(s.Effective(items[i]).value)) <= covered;
      var result, entries := ExecuteSendPlan(s, covered, cache, writer, statuses, i, items[i], luck(i));
      HandleOneMore(s, items, luck, old(writer.db), mid, writer.db, work, states, entries);
      ItemsReportOneMore(items, results, work, result, entries);
      counters := CountResult(results, counters, result);
      results := results + [result];
      work, states := work + [entries], states + [writer.db];
    }
    OverallIsRight(items, results, work, counters);
    resp := BatchResponse(Overall(|items|, counters), results, counters);
  }

  /** SendBatch, from the resolved workspace on. */
  method SendBatch(
      s: Setting, evaluator: SuppressionBatchEvaluator, writer: SendPersistenceWriter,
      items: seq<Item>, luck: nat -> ItemLuck, storeOk: bool, ttsOk: bool)
    returns (r: Result<BatchResponse, string>, ghost work: seq<seq<TrackingEntry>>, ghost states: seq<Db>)
    requires s.levels == LevelsOf(evaluator) && s.OneType()
    modifies evaluator.Frame(), writer
    ensures r.Err? <==>
      || s.resolve(EffectiveLocale(s.blank, None, s.ws.defaultLocale)).Err?
      || (exists i :: 0 <= i < |items| && s.Effective(items[i]).Err?)
      || !storeOk || (evaluator.tts != null && !ttsOk)
    ensures r.Err? ==> writer.db == old(writer.db)
    ensures r.Ok? ==>
      && |r.value.items| == |work| == |items|
      && HandledInTurn(s, items, luck, old(writer.db), writer.db, work, states)
      && ItemsReport(items, r.value.items, work)
      && Accounted(r.value.items, r.value.counters)
      && OverallReports(r.value.status, work)
  {
    work, states := [], [];
    var base := s.resolve(EffectiveLocale(s.blank, None, s.ws.defaultLocale));
    if base.Err? {
      return Err(base.error), work, states;
    }
    var inputs := EffectiveInputs(s.ws, s.templateType, s.normalize, items);
    if inputs.Err? {
      return Err(inputs.error), work, states;
    }
    var statuses := PrimeStatuses(evaluator, inputs.value, storeOk, ttsOk);
    if statuses.Err? {
      return Err(statuses.error), work, states;
    }
    ghost var covered := Elements(AllRecipients(inputs.value));
    EveryInputIsCovered(inputs.value);
    var cache := new TemplateCache(s.blank, s.resolve, s.ws.defaultLocale, base.value);
    var resp;
    resp, work, states := RunItems(s, covered, cache, writer, statuses.value, items, luck);
    return Ok(resp), work, states;
  }
}
