/** Provider events: internal/service/event_processor.go.

    `Next` is one atomic step of a world in which any number of Process and
    ProcessDirect calls, the send worker and new sends are interleaved. A call
    is split at every store access, so what it read may be stale when it writes. */
module EventProcessing {
  import opened Common

  // ---------------------------------------------------------------- statuses

  datatype Status =
    | Queued | Processing | Sent | Delivered | Opened
    | Bounced | Complained | Failed | Suppressed

  datatype EventType = EventDelivered | EventBounced | EventComplained | EventOpened | Unrecognised(name: string)

  /** `bounceType` is BounceDetail.BounceType, None when there is no detail. */
  datatype ProviderEvent = ProviderEvent(etype: EventType, messageId: string, bounceType: Option<string>)

  function ValidTargets(from: Status): seq<Status> {
    match from
    case Sent => [Delivered, Bounced, Complained]
    case Delivered => [Bounced, Complained, Opened]
    case Opened => [Bounced, Complained]
    case Processing => [Sent, Failed]
    case _ => []
  }

  predicate IsValidTransition(from: Status, to: Status) {
    to in ValidTargets(from)
  }

  function MapEventToStatus(t: EventType): Option<Status> {
    match t
    case EventDelivered => Some(Delivered)
    case EventBounced => Some(Bounced)
    case EventComplained => Some(Complained)
    case EventOpened => Some(Opened)
    case Unrecognised(_) => None
  }

  /** How far an email has travelled. Every legal status write raises it. */
  function Rank(s: Status): nat {
    match s
    case Queued => 0
    case Processing => 1
    case Sent => 2
    case Delivered => 3
    case Opened => 4
    case _ => 5
  }

  predicate Terminal(s: Status) {
    s in {Bounced, Complained, Failed, Suppressed}
  }

  /** The status writes of the queue worker (internal/adapter/river/send_worker.go). */
  predicate WorkerTransition(from: Status, to: Status) {
    (from == Queued && to == Processing) || (from == Processing && to in {Sent, Failed, Suppressed})
  }

  // ------------------------------------------------------------------- store

  datatype Email = Email(recipient: string, workspace: Uuid, status: Status)

  datatype Source = ProviderWebhook | OpenTrackingPixel

  /** A logged event. `advanced` is history: did its call also write the status? */
  datatype EmailEvent = EmailEvent(email: Uuid, status: Status, source: Source, bounceType: Option<string>, advanced: bool)

  datatype SuppressionRow =
    | GlobalRow(address: string, sourceEmail: Uuid)
    | WorkspaceRow(workspace: Uuid, address: string, sourceEmail: Uuid)

  datatype Db = Db(
    emails: map<Uuid, Email>,
    byMessage: map<string, Uuid>,
    events: seq<EmailEvent>,
    rows: seq<SuppressionRow>)

  function SetStatus(db: Db, id: Uuid, s: Status): Db
    requires id in db.emails
  {
    db.(emails := db.emails[id := db.emails[id].(status := s)])
  }

  // ------------------------------------------------------------------- calls

  /** Process finds its email by provider message id; ProcessDirect is handed one. */
  datatype Entry = ByMessage | Direct(id: Uuid)

  datatype Pc =
    | Reading
    | Updating(email: Uuid, snapshot: Status)
    | Logging(email: Uuid, advanced: bool)
    | Suppressing(email: Uuid)
    | Returned(ok: bool)

  datatype Call = Call(entry: Entry, event: ProviderEvent, pc: Pc)

  /** A successful status write, remembered as history. */
  datatype Write = Write(email: Uuid, from: Status, to: Status, byProcessor: bool)

  /** `lost` holds the events whose AddEvent failed, `missed` the source emails
      of suppression rows whose insertion failed. */
  datatype World = World(db: Db, calls: seq<Call>, writes: seq<Write>, lost: seq<EmailEvent>, missed: seq<Uuid>)

  datatype Action =
    | Spawn(entry: Entry, event: ProviderEvent)
    | Advance(call: nat, ok: bool)
    | WorkerUpdate(id: Uuid, from: Status, to: Status)
    | CreateEmail(id: Uuid, email: Email)

  /** Where a call goes after reading `status`, before it writes anything. */
  function Decide(entry: Entry, event: ProviderEvent, id: Uuid, status: Status): Pc {
    match MapEventToStatus(event.etype)
    case None => Returned(true)
    case Some(target) =>
      if entry.Direct? && event.etype == EventOpened then
        if status == Sent || status == Delivered then Updating(id, status) else Logging(id, false)
      else if IsValidTransition(status, target) then Updating(id, status)
      else Returned(true)
  }

  function Found(db: Db, entry: Entry, event: ProviderEvent): Option<Uuid> {
    match entry
    case Direct(id) => if id in db.emails then Some(id) else None
    case ByMessage =>
      if event.messageId in db.byMessage && db.byMessage[event.messageId] in db.emails
      then Some(db.byMessage[event.messageId]) else None
  }

  /** handleSuppression: the row an event calls for, if any. */
  function RowFor(event: ProviderEvent, id: Uuid, email: Email): Option<SuppressionRow> {
    match event.etype
    case EventBounced => if event.bounceType == Some("hard") then Some(GlobalRow(email.recipient, id)) else None
    case EventComplained => Some(WorkspaceRow(email.workspace, email.recipient, id))
    case _ => None
  }

  function SetPc(w: World, i: nat, pc: Pc): World
    requires i < |w.calls|
  {
    w.(calls := w.calls[i := w.calls[i].(pc := pc)])
  }

  function Target(c: Call): Status {
    MapEventToStatus(c.event.etype).GetOr(Queued)
  }

  /** UpdateStatus(id, new, expected): a compare-and-set that may also just fail. */
  function UpdateStep(w: World, i: nat, ok: bool): World
    requires i < |w.calls| && w.calls[i].pc.Updating?
  {
    var c := w.calls[i];
    var id, snapshot := c.pc.email, c.pc.snapshot;
    if ok && id in w.db.emails && w.db.emails[id].status == snapshot then
      SetPc(w, i, Logging(id, true)).(
      db := SetStatus(w.db, id, Target(c)),
      writes := w.writes + [Write(id, snapshot, Target(c), true)])
    else SetPc(w, i, Returned(false))
  }

  function EventFor(c: Call, id: Uuid, advanced: bool): EmailEvent {
    var source := if c.entry.Direct? then OpenTrackingPixel else ProviderWebhook;
    EmailEvent(id, Target(c), source, c.event.bounceType, advanced)
  }

  function LogStep(w: World, i: nat, ok: bool): World
    requires i < |w.calls| && w.calls[i].pc.Logging?
  {
    var c := w.calls[i];
    var event := EventFor(c, c.pc.email, c.pc.advanced);
    if ok then
      SetPc(w, i, if c.entry.Direct? then Returned(true) else Suppressing(c.pc.email)).(
      db := w.db.(events := w.db.events + [event]))
    else SetPc(w, i, Returned(false)).(lost := w.lost + [event])
  }

  function SuppressStep(w: World, i: nat, ok: bool): World
    requires i < |w.calls| && w.calls[i].pc.Suppressing?
  {
    var c := w.calls[i];
    var id := c.pc.email;
    var done := SetPc(w, i, Returned(true));
    if id !in w.db.emails then done else
    match RowFor(c.event, id, w.db.emails[id])
    case None => done
    case Some(row) =>
      if ok then done.(db := w.db.(rows := w.db.rows + [row])) else done.(missed := w.missed + [id])
  }

  function CallStep(w: World, i: nat, ok: bool): World
    requires i < |w.calls|
  {
    var c := w.calls[i];
    match c.pc
    case Reading =>
      var found := Found(w.db, c.entry, c.event);
      if !ok || found.None? then SetPc(w, i, Returned(false))
      else SetPc(w, i, Decide(c.entry, c.event, found.value, w.db.emails[found.value].status))
    case Updating(_, _) => UpdateStep(w, i, ok)
    case Logging(_, _) => LogStep(w, i, ok)
    case Suppressing(_) => SuppressStep(w, i, ok)
    case Returned(_) => w
  }

  function Next(w: World, a: Action): World {
    match a
    case Spawn(entry, event) => w.(calls := w.calls + [Call(entry, event, Reading)])
    case Advance(i, ok) => if i < |w.calls| then CallStep(w, i, ok) else w
    case WorkerUpdate(id, from, to) =>
      if id in w.db.emails && w.db.emails[id].status == from && WorkerTransition(from, to)
      then w.(db := SetStatus(w.db, id, to), writes := w.writes + [Write(id, from, to, false)])
      else w
    case CreateEmail(id, email) =>
      if id in w.db.emails then w else w.(db := w.db.(emails := w.db.emails[id := email]))
  }

  function Run(w: World, actions: seq<Action>): World
    decreases |actions|
  {
    if actions == [] then w else Run(Next(w, actions[0]), actions[1..])
  }

  // --------------------------------------------------------------- invariant

  /** `s` is `t` itself or lies strictly beyond it. */
  predicate Reached(s: Status, t: Status) {
    s == t || Rank(t) < Rank(s)
  }

  ghost predicate CallOk(emails: map<Uuid, Email>, c: Call) {
    match c.pc
    case Reading => true
    case Returned(_) => true
    case Updating(id, snapshot) =>
      id in emails && MapEventToStatus(c.event.etype).Some? && Rank(snapshot) < Rank(Target(c))
    case Logging(id, advanced) =>
      id in emails && MapEventToStatus(c.event.etype).Some?
      && (advanced ==> Reached(emails[id].status, Target(c))) && (c.entry.ByMessage? ==> advanced)
    case Suppressing(id) =>
      id in emails && MapEventToStatus(c.event.etype).Some?
      && Reached(emails[id].status, Target(c)) && c.entry.ByMessage?
  }

  /** Writes to one email climb: each starts no lower than an earlier one ended. */
  ghost predicate Climbing(writes: seq<Write>) {
    && (forall p | 0 <= p < |writes| :: Rank(writes[p].from) < Rank(writes[p].to))
    && (forall p, q | 0 <= p < q < |writes| && writes[p].email == writes[q].email ::
          Rank(writes[p].to) <= Rank(writes[q].from))
  }

  ghost predicate WritesOk(emails: map<Uuid, Email>, writes: seq<Write>) {
    && Climbing(writes)
    && (forall p | 0 <= p < |writes| ::
          writes[p].email in emails && Rank(writes[p].to) <= Rank(emails[writes[p].email].status))
  }

  ghost predicate RowOk(emails: map<Uuid, Email>, row: SuppressionRow) {
    && row.sourceEmail in emails
    && emails[row.sourceEmail].status == (if row.GlobalRow? then Bounced else Complained)
    && emails[row.sourceEmail].recipient == row.address
    && (row.WorkspaceRow? ==> emails[row.sourceEmail].workspace == row.workspace)
  }

  // The two ledgers, for one email (and one status).

  function Entered(id: Uuid, s: Status): Write -> bool {
    (x: Write) => x.byProcessor && x.email == id && x.to == s
  }

  function Logged(id: Uuid, s: Status): EmailEvent -> bool {
    (e: EmailEvent) => e.advanced && e.email == id && e.status == s
  }

  function AboutToLog(id: Uuid, s: Status): Call -> bool {
    (c: Call) => c.pc == Logging(id, true) && Target(c) == s
  }

  function Equal<T(==)>(x: T): T -> bool {
    (y: T) => y == x
  }

  /** Every status the processor entered is logged, about to be logged, or lost. */
  ghost predicate StatusLedger(w: World, id: Uuid, s: Status) {
    Count(w.writes, Entered(id, s))
    == Count(w.db.events, Logged(id, s)) + Count(w.calls, AboutToLog(id, s)) + Count(w.lost, Logged(id, s))
  }

  predicate Suppresses(s: Status, bounceType: Option<string>) {
    s == Complained || (s == Bounced && bounceType == Some("hard"))
  }

  function Owes(id: Uuid): EmailEvent -> bool {
    (e: EmailEvent) => e.source == ProviderWebhook && e.email == id && Suppresses(e.status, e.bounceType)
  }

  function RowOf(id: Uuid): SuppressionRow -> bool {
    (row: SuppressionRow) => row.sourceEmail == id
  }

  function AboutToSuppress(id: Uuid): Call -> bool {
    (c: Call) => c.pc == Suppressing(id) && Suppresses(Target(c), c.event.bounceType)
  }

  /** Every logged hard bounce or complaint has its row, is about to, or its insertion failed. */
  ghost predicate SuppressionLedger(w: World, id: Uuid) {
    Count(w.db.events, Owes(id))
    == Count(w.db.rows, RowOf(id)) + Count(w.calls, AboutToSuppress(id)) + Count(w.missed, Equal(id))
  }

  ghost predicate CallsOk(emails: map<Uuid, Email>, calls: seq<Call>) {
    forall i | 0 <= i < |calls| :: CallOk(emails, calls[i])
  }

  ghost predicate RowsOk(emails: map<Uuid, Email>, rows: seq<SuppressionRow>) {
    forall i | 0 <= i < |rows| :: RowOk(emails, rows[i])
  }

  /** Process never logs an event without having advanced the status. */
  ghost predicate EventsOk(events: seq<EmailEvent>) {
    forall i | 0 <= i < |events| :: events[i].source == ProviderWebhook ==> events[i].advanced
  }

  ghost predicate Inv(w: World) {
    && CallsOk(w.db.emails, w.calls)
    && WritesOk(w.db.emails, w.writes)
    && RowsOk(w.db.emails, w.db.rows)
    && EventsOk(w.db.events)
  }

  /** No call has started and nothing has been logged; emails may be anywhere. */
  ghost predicate Fresh(w: World) {
    w.calls == [] && w.writes == [] && w.lost == [] && w.missed == [] && w.db.events == [] && w.db.rows == []
  }

  // ------------------------------------------------------------ preservation

  /** Only two things happen to an email: it appears, or its status climbs. */
  ghost predicate Onward(before: map<Uuid, Email>, after: map<Uuid, Email>) {
    forall id | id in before ::
      && id in after
      && after[id].recipient == before[id].recipient
      && after[id].workspace == before[id].workspace
      && Reached(after[id].status, before[id].status)
  }

  lemma {:induction false} OneEmailOnward(emails: map<Uuid, Email>, id: Uuid, to: Status)
    requires id in emails && Rank(emails[id].status) < Rank(to)
    ensures Onward(emails, emails[id := emails[id].(status := to)])
  {
  }

  lemma {:induction false} NextOnward(w: World, a: Action)
    requires CallsOk(w.db.emails, w.calls)
    ensures Onward(w.db.emails, Next(w, a).db.emails)
  {
    match a
    case Spawn(_, _) =>
    case Advance(i, ok) =>
      if i < |w.calls| {
        assert CallOk(w.db.emails, w.calls[i]);
        if w.calls[i].pc.Updating? && Next(w, a).db.emails != w.db.emails {
          OneEmailOnward(w.db.emails, w.calls[i].pc.email, Target(w.calls[i]));
        }
      }
    case WorkerUpdate(id, from, to) =>
      if id in w.db.emails && w.db.emails[id].status == from && WorkerTransition(from, to) {
        OneEmailOnward(w.db.emails, id, to);
      }
    case CreateEmail(_, _) =>
  }

  // What the invariant says of calls, rows and writes survives others' progress.

  lemma {:induction false} OnwardKeepsCalls(before: map<Uuid, Email>, after: map<Uuid, Email>, calls: seq<Call>)
    requires CallsOk(before, calls) && Onward(before, after)
    ensures CallsOk(after, calls)
  {
    forall i | 0 <= i < |calls| ensures CallOk(after, calls[i]) {
      assert CallOk(before, calls[i]);
    }
  }

  lemma {:induction false} OnwardKeepsRows(before: map<Uuid, Email>, after: map<Uuid, Email>, rows: seq<SuppressionRow>)
    requires RowsOk(before, rows) && Onward(before, after)
    ensures RowsOk(after, rows)
  {
    forall i | 0 <= i < |rows| ensures RowOk(after, rows[i]) {
      assert RowOk(before, rows[i]);
    }
  }

  lemma {:induction false} OnwardKeepsWrites(before: map<Uuid, Email>, after: map<Uuid, Email>, writes: seq<Write>)
    requires WritesOk(before, writes) && Onward(before, after)
    ensures WritesOk(after, writes)
  {
  }

  lemma {:induction false} ClimbingAppend(writes: seq<Write>, x: Write)
    requires Climbing(writes) && Rank(x.from) < Rank(x.to)
    requires forall p | 0 <= p < |writes| && writes[p].email == x.email :: Rank(writes[p].to) <= Rank(x.from)
    ensures Climbing(writes + [x])
  {
  }

  /** The compare-and-set is what keeps writes climbing: it starts where the email is. */
  lemma {:induction false} WriteKeepsWrites(emails: map<Uuid, Email>, writes: seq<Write>, x: Write)
    requires WritesOk(emails, writes)
    requires x.email in emails && emails[x.email].status == x.from && Rank(x.from) < Rank(x.to)
    ensures WritesOk(emails[x.email := emails[x.email].(status := x.to)], writes + [x])
  {
    ClimbingAppend(writes, x);
  }

  lemma {:induction false} DecideOk(emails: map<Uuid, Email>, c: Call, id: Uuid)
    requires id in emails
    ensures CallOk(emails, c.(pc := Decide(c.entry, c.event, id, emails[id].status)))
  {
  }

  lemma {:induction false} UpdateKeepsInv(w: World, i: nat, ok: bool)
    requires Inv(w) && i < |w.calls| && w.calls[i].pc.Updating?
    ensures Inv(UpdateStep(w, i, ok))
  {
    var c := w.calls[i];
    var w' := UpdateStep(w, i, ok);
    assert CallOk(w.db.emails, c);
    if w'.calls[i].pc.Logging? {
      var x := Write(c.pc.email, c.pc.snapshot, Target(c), true);
      OneEmailOnward(w.db.emails, x.email, x.to);
      OnwardKeepsCalls(w.db.emails, w'.db.emails, w.calls);
      OnwardKeepsRows(w.db.emails, w'.db.emails, w.db.rows);
      WriteKeepsWrites(w.db.emails, w.writes, x);
    }
  }

  lemma {:induction false} CallStepKeepsInv(w: World, i: nat, ok: bool)
    requires Inv(w) && i < |w.calls|
    ensures Inv(CallStep(w, i, ok))
  {
    var c := w.calls[i];
    assert CallOk(w.db.emails, c);
    match c.pc
    case Reading =>
      var found := Found(w.db, c.entry, c.event);
      if ok && found.Some? {
        DecideOk(w.db.emails, c, found.value);
      }
    case Updating(_, _) => UpdateKeepsInv(w, i, ok);
    case _ =>
  }

  lemma {:induction false} NextKeepsInv(w: World, a: Action)
    requires Inv(w)
    ensures Inv(Next(w, a))
  {
    var w' := Next(w, a);
    match a
    case Spawn(_, _) =>
    case Advance(i, ok) =>
      if i < |w.calls| {
        CallStepKeepsInv(w, i, ok);
      }
    case WorkerUpdate(id, from, to) =>
      if w'.writes != w.writes {
        OneEmailOnward(w.db.emails, id, to);
        OnwardKeepsCalls(w.db.emails, w'.db.emails, w.calls);
        OnwardKeepsRows(w.db.emails, w'.db.emails, w.db.rows);
        WriteKeepsWrites(w.db.emails, w.writes, Write(id, from, to, false));
      }
    case CreateEmail(_, _) =>
      OnwardKeepsCalls(w.db.emails, w'.db.emails, w.calls);
      OnwardKeepsRows(w.db.emails, w'.db.emails, w.db.rows);
      OnwardKeepsWrites(w.db.emails, w'.db.emails, w.writes);
  }

  lemma {:induction false} RunKeepsInv(w: World, actions: seq<Action>)
    requires Inv(w)
    ensures Inv(Run(w, actions))
    decreases |actions|
  {
    if actions != [] {
      NextKeepsInv(w, actions[0]);
      RunKeepsInv(Next(w, actions[0]), actions[1..]);
    }
  }

  lemma {:induction false} UpdateKeepsStatusLedger(w: World, i: nat, ok: bool, id: Uuid, s: Status)
    requires i < |w.calls| && w.calls[i].pc.Updating? && StatusLedger(w, id, s)
    ensures StatusLedger(UpdateStep(w, i, ok), id, s)
  {
    var c := w.calls[i];
    var w' := UpdateStep(w, i, ok);
    CountUpdate(w.calls, i, w'.calls[i], AboutToLog(id, s));
    CountAppend(w.writes, Write(c.pc.email, c.pc.snapshot, Target(c), true), Entered(id, s));
  }

  lemma {:induction false} LogKeepsStatusLedger(w: World, i: nat, ok: bool, id: Uuid, s: Status)
    requires i < |w.calls| && w.calls[i].pc.Logging? && StatusLedger(w, id, s)
    ensures StatusLedger(LogStep(w, i, ok), id, s)
  {
    var c := w.calls[i];
    var event := EventFor(c, c.pc.email, c.pc.advanced);
    CountUpdate(w.calls, i, LogStep(w, i, ok).calls[i], AboutToLog(id, s));
    CountAppend(w.db.events, event, Logged(id, s));
    CountAppend(w.lost, event, Logged(id, s));
  }

  /** A step that keeps a call away from logging does not concern the ledger. */
  lemma {:induction false} QuietStepKeepsStatusLedger(w: World, i: nat, ok: bool, id: Uuid, s: Status)
    requires i < |w.calls| && !w.calls[i].pc.Updating? && !w.calls[i].pc.Logging? && StatusLedger(w, id, s)
    ensures StatusLedger(CallStep(w, i, ok), id, s)
  {
    var w' := CallStep(w, i, ok);
    CountUpdate(w.calls, i, w'.calls[i], AboutToLog(id, s));
    assert w'.calls == w.calls[i := w'.calls[i]];
  }

  lemma {:induction false} NextKeepsStatusLedger(w: World, a: Action, id: Uuid, s: Status)
    requires StatusLedger(w, id, s)
    ensures StatusLedger(Next(w, a), id, s)
  {
    match a
    case Spawn(entry, event) => CountAppend(w.calls, Call(entry, event, Reading), AboutToLog(id, s));
    case Advance(i, ok) =>
      if i < |w.calls| {
        match w.calls[i].pc
        case Updating(_, _) => UpdateKeepsStatusLedger(w, i, ok, id, s);
        case Logging(_, _) => LogKeepsStatusLedger(w, i, ok, id, s);
        case _ => QuietStepKeepsStatusLedger(w, i, ok, id, s);
      }
    case WorkerUpdate(x, from, to) => CountAppend(w.writes, Write(x, from, to, false), Entered(id, s));
    case CreateEmail(_, _) =>
  }

  lemma {:induction false} LogKeepsSuppressionLedger(w: World, i: nat, ok: bool, id: Uuid)
    requires i < |w.calls| && w.calls[i].pc.Logging? && SuppressionLedger(w, id)
    ensures SuppressionLedger(LogStep(w, i, ok), id)
  {
    var w' := LogStep(w, i, ok);
    CountUpdate(w.calls, i, w'.calls[i], AboutToSuppress(id));
    if ok {
      CountAppend(w.db.events, w'.db.events[|w.db.events|], Owes(id));
    }
  }

  lemma {:induction false} SuppressKeepsSuppressionLedger(w: World, i: nat, ok: bool, id: Uuid)
    requires i < |w.calls| && w.calls[i].pc.Suppressing? && CallOk(w.db.emails, w.calls[i])
    requires SuppressionLedger(w, id)
    ensures SuppressionLedger(SuppressStep(w, i, ok), id)
  {
    var c := w.calls[i];
    var source := c.pc.email;
    CountUpdate(w.calls, i, c.(pc := Returned(true)), AboutToSuppress(id));
    match RowFor(c.event, source, w.db.emails[source])
    case None => assert !Suppresses(Target(c), c.event.bounceType);
    case Some(row) =>
      assert Suppresses(Target(c), c.event.bounceType) && row.sourceEmail == source;
      if ok {
        CountAppend(w.db.rows, row, RowOf(id));
      } else {
        CountAppend(w.missed, source, Equal(id));
      }
  }

  /** A step that neither logs nor suppresses does not concern the ledger. */
  lemma {:induction false} QuietStepKeepsSuppressionLedger(w: World, i: nat, ok: bool, id: Uuid)
    requires i < |w.calls| && !w.calls[i].pc.Suppressing? && !w.calls[i].pc.Logging?
    requires SuppressionLedger(w, id)
    ensures SuppressionLedger(CallStep(w, i, ok), id)
  {
    var w' := CallStep(w, i, ok);
    CountUpdate(w.calls, i, w'.calls[i], AboutToSuppress(id));
    assert w'.calls == w.calls[i := w'.calls[i]];
  }

  lemma {:induction false} NextKeepsSuppressionLedger(w: World, a: Action, id: Uuid)
    requires CallsOk(w.db.emails, w.calls) && SuppressionLedger(w, id)
    ensures SuppressionLedger(Next(w, a), id)
  {
    match a
    case Spawn(entry, event) => CountAppend(w.calls, Call(entry, event, Reading), AboutToSuppress(id));
    case Advance(i, ok) =>
      if i < |w.calls| {
        match w.calls[i].pc
        case Logging(_, _) => LogKeepsSuppressionLedger(w, i, ok, id);
        case Suppressing(_) => SuppressKeepsSuppressionLedger(w, i, ok, id);
        case _ => QuietStepKeepsSuppressionLedger(w, i, ok, id);
      }
    case WorkerUpdate(_, _, _) =>
    case CreateEmail(_, _) =>
  }

  lemma {:induction false} RunKeepsLedgers(w: World, actions: seq<Action>, id: Uuid, s: Status)
    requires Inv(w) && StatusLedger(w, id, s) && SuppressionLedger(w, id)
    ensures StatusLedger(Run(w, actions), id, s) && SuppressionLedger(Run(w, actions), id)
    decreases |actions|
  {
    if actions != [] {
      NextKeepsInv(w, actions[0]);
      NextKeepsStatusLedger(w, actions[0], id, s);
      NextKeepsSuppressionLedger(w, actions[0], id);
      RunKeepsLedgers(Next(w, actions[0]), actions[1..], id, s);
    }
  }

  // ---------------------------------------------------------------- theorems

  /** In every reachable state, for every email and status: the times the
      processor entered the status are the events logged for it, the events
      between UpdateStatus and AddEvent, and the events AddEvent lost. And the
      logged hard bounces and complaints are the rows written, the rows about
      to be written, and the rows whose insertion failed. */
  lemma {:induction false} Conservation(w: World, actions: seq<Action>, id: Uuid, s: Status)
    requires Fresh(w)
    ensures StatusLedger(Run(w, actions), id, s)
    ensures SuppressionLedger(Run(w, actions), id)
  {
    RunKeepsLedgers(w, actions, id, s);
  }

  /** Climbing writes enter at most one status of any one rank. */
  lemma {:induction false} OneWritePerRank(writes: seq<Write>, id: Uuid, s: Status, t: Status)
    requires Climbing(writes) && Rank(s) == Rank(t)
    ensures Count(writes, Entered(id, s)) + (if s == t then 0 else Count(writes, Entered(id, t))) <= 1
  {
    if |writes| != 0 {
      var earlier, last := writes[..|writes| - 1], writes[|writes| - 1];
      assert forall p | 0 <= p < |earlier| :: earlier[p] == writes[p];
      OneWritePerRank(earlier, id, s, t);
      if last.email == id && (last.to == s || last.to == t) {
        CountNone(earlier, Entered(id, s));
        CountNone(earlier, Entered(id, t));
      }
    }
  }

  /** The same bound for events that are logged, pending or lost. */
  lemma {:induction false} OneEventPerRank(w: World, actions: seq<Action>, id: Uuid, s: Status, t: Status)
    requires Fresh(w) && Rank(s) == Rank(t)
    ensures var w' := Run(w, actions);
      && Count(w'.db.events, Logged(id, s)) + Count(w'.lost, Logged(id, s)) <= 1
      && (s != t ==> Count(w'.db.events, Logged(id, s)) + Count(w'.db.events, Logged(id, t)) <= 1)
  {
    RunKeepsInv(w, actions);
    Conservation(w, actions, id, s);
    Conservation(w, actions, id, t);
    OneWritePerRank(Run(w, actions).writes, id, s, t);
  }

  /** The deduplication claim of Process, for every interleaving with stale
      readers, ProcessDirect calls and the worker: two events it logged for one
      email are of different types, and never a bounce and a complaint. */
  lemma {:induction false} ProcessDeduplicates(w: World, actions: seq<Action>, p: nat, q: nat)
    requires Fresh(w)
    requires var events := Run(w, actions).db.events;
      && p < q < |events|
      && events[p].source == events[q].source == ProviderWebhook
      && events[p].email == events[q].email
    ensures var events := Run(w, actions).db.events;
      && events[p].status != events[q].status
      && {events[p].status, events[q].status} != {Bounced, Complained}
  {
    RunKeepsInv(w, actions);
    var events := Run(w, actions).db.events;
    var id, s, t := events[p].email, events[p].status, events[q].status;
    if s == t {
      CountTwo(events, p, q, Logged(id, s));
      OneEventPerRank(w, actions, id, s, s);
    } else if {s, t} == {Bounced, Complained} {
      assert s in {Bounced, Complained} && t in {Bounced, Complained};
      CountOne(events, p, Logged(id, s));
      CountOne(events, q, Logged(id, t));
      OneEventPerRank(w, actions, id, s, t);
    }
  }

  /** One undisturbed pixel hit on an email that was opened already. */
  lemma {:induction false} PixelHitLogsAnOpen(db: Db, id: Uuid)
    requires id in db.emails && db.emails[id].status == Opened
    ensures Solo(db, Direct(id), ProviderEvent(EventOpened, "", None), Faults(true, true, true, true)).db
         == db.(events := db.events + [EmailEvent(id, Opened, OpenTrackingPixel, None, false)])
  {
    var hit, f := ProviderEvent(EventOpened, "", None), Faults(true, true, true, true);
    SoloUnfolds(db, Direct(id), hit, f);
    var w0 := World(db, [Call(Direct(id), hit, Reading)], [], [], []);
    var w1 := SoloStep(w0, f);
    assert w1 == w0.(calls := [Call(Direct(id), hit, Logging(id, false))]);
    var w2 := SoloStep(w1, f);
    assert w2.calls == [Call(Direct(id), hit, Returned(true))];
    assert w2.db == db.(events := db.events + [EmailEvent(id, Opened, OpenTrackingPixel, None, false)]);
    assert SoloStep(w2, f) == w2;
  }

  /** Duplicates come from the pixel only: of two events of one type logged for one
      email, one is a pixel hit that changed no status. */
  lemma {:induction false} DuplicatesAreIdlePixelHits(w: World, actions: seq<Action>, p: nat, q: nat)
    requires Fresh(w)
    requires var events := Run(w, actions).db.events;
      && p < q < |events| && events[p].email == events[q].email && events[p].status == events[q].status
    ensures var events := Run(w, actions).db.events;
      exists i :: i in {p, q} && events[i].source == OpenTrackingPixel && !events[i].advanced
  {
    RunKeepsInv(w, actions);
    var events := Run(w, actions).db.events;
    var id, s := events[p].email, events[p].status;
    if events[p].advanced && events[q].advanced {
      CountTwo(events, p, q, Logged(id, s));
      OneEventPerRank(w, actions, id, s, s);
      assert false;
    }
    var i := if events[p].advanced then q else p;
    assert i in {p, q} && !events[i].advanced;
  }

  /** ProcessDirect is outside that claim: every further pixel hit logs an open. */
  lemma {:induction false} PixelOpensAreLoggedAgain(db: Db, id: Uuid)
    requires id in db.emails && db.emails[id].status == Opened
    ensures exists actions ::
      var db' := Run(World(db, [], [], [], []), actions).db;
      db' == db.(events := db.events + [EmailEvent(id, Opened, OpenTrackingPixel, None, false)])
  {
    PixelHitLogsAnOpen(db, id);
    SoloIsARun(db, Direct(id), ProviderEvent(EventOpened, "", None), Faults(true, true, true, true));
  }

  lemma {:induction false} RunAppend(w: World, a: seq<Action>, b: seq<Action>)
    ensures Run(w, a + b) == Run(Run(w, a), b)
    decreases |a|
  {
    if a == [] {
      assert a + b == b;
    } else {
      assert (a + b)[1..] == a[1..] + b;
      RunAppend(Next(w, a[0]), a[1..], b);
    }
  }

  lemma {:induction false} NextAppendsRows(w: World, a: Action)
    ensures w.db.rows <= Next(w, a).db.rows
  {
    if a.Advance? && a.call < |w.calls| && w.calls[a.call].pc.Suppressing? {
      var w' := SuppressStep(w, a.call, a.ok);
      assert w'.db.rows == w.db.rows || |w'.db.rows| == |w.db.rows| + 1;
    }
  }

  lemma {:induction false} OnwardTransitive(a: map<Uuid, Email>, b: map<Uuid, Email>, c: map<Uuid, Email>)
    requires Onward(a, b) && Onward(b, c)
    ensures Onward(a, c)
  {
  }

  lemma {:induction false} RunOnward(w: World, actions: seq<Action>)
    requires Inv(w)
    ensures Onward(w.db.emails, Run(w, actions).db.emails)
    ensures w.db.rows <= Run(w, actions).db.rows
    decreases |actions|
  {
    if actions != [] {
      NextOnward(w, actions[0]);
      NextAppendsRows(w, actions[0]);
      NextKeepsInv(w, actions[0]);
      var w1 := Next(w, actions[0]);
      RunOnward(w1, actions[1..]);
      OnwardTransitive(w.db.emails, w1.db.emails, Run(w1, actions[1..]).db.emails);
    }
  }

  /** No email ever regresses, and a terminal status is for ever. */
  lemma {:induction false} StatusNeverRegresses(w: World, before: seq<Action>, after: seq<Action>, id: Uuid)
    requires Fresh(w) && id in Run(w, before).db.emails
    ensures var s := Run(w, before).db.emails[id].status;
      && id in Run(w, before + after).db.emails
      && var t := Run(w, before + after).db.emails[id].status;
         && Reached(t, s)
         && (Terminal(s) ==> t == s)
  {
    RunKeepsInv(w, before);
    RunAppend(w, before, after);
    RunOnward(Run(w, before), after);
  }

  /** At most three status writes, by anyone, follow an email's being sent. */
  lemma {:induction false} AtMostThreeWritesAfterSent(w: World, actions: seq<Action>, id: Uuid, ps: seq<nat>)
    requires Fresh(w)
    requires forall i | 0 <= i < |ps| ::
      && ps[i] < |Run(w, actions).writes|
      && Run(w, actions).writes[ps[i]].email == id
      && Rank(Sent) <= Rank(Run(w, actions).writes[ps[i]].from)
    requires forall i, j | 0 <= i < j < |ps| :: ps[i] < ps[j]
    ensures |ps| > 0 ==> Rank(Run(w, actions).writes[ps[|ps| - 1]].to) >= Rank(Sent) + |ps|
    ensures |ps| <= 3
  {
    RunKeepsInv(w, actions);
    if |ps| > 1 {
      AtMostThreeWritesAfterSent(w, actions, id, ps[..|ps| - 1]);
    }
  }

  /** A suppression row, once written, points for ever to an email that is still
      bounced (global row) or complained (workspace row). */
  lemma {:induction false} RowsStayJustified(w: World, before: seq<Action>, after: seq<Action>, i: nat)
    requires Fresh(w) && i < |Run(w, before).db.rows|
    ensures var w' := Run(w, before + after);
      && i < |w'.db.rows| && w'.db.rows[i] == Run(w, before).db.rows[i]
      && RowOk(w'.db.emails, w'.db.rows[i])
  {
    RunKeepsInv(w, before);
    RunAppend(w, before, after);
    RunOnward(Run(w, before), after);
    RunKeepsInv(Run(w, before), after);
  }

  lemma {:induction false} OwesIsBouncedOrComplained(events: seq<EmailEvent>, id: Uuid)
    requires EventsOk(events)
    ensures Count(events, Owes(id)) <= Count(events, Logged(id, Bounced)) + Count(events, Logged(id, Complained))
  {
    if |events| != 0 {
      OwesIsBouncedOrComplained(events[..|events| - 1], id);
    }
  }

  /** One email is the source of at most one suppression row. */
  lemma {:induction false} AtMostOneRowPerEmail(w: World, actions: seq<Action>, id: Uuid)
    requires Fresh(w)
    ensures Count(Run(w, actions).db.rows, RowOf(id)) <= 1
  {
    RunKeepsInv(w, actions);
    Conservation(w, actions, id, Bounced);
    OneEventPerRank(w, actions, id, Bounced, Complained);
    OwesIsBouncedOrComplained(Run(w, actions).db.events, id);
  }

  /** The price of deduplicating by status: when AddEvent fails after the status
      was written, no redelivery, in any continuation, ever logs that event; and
      a bounce or complaint lost this way never suppresses its recipient. */
  lemma {:induction false} LostEventIsNeverRecovered(w: World, actions: seq<Action>, id: Uuid, s: Status)
    requires Fresh(w) && Count(Run(w, actions).lost, Logged(id, s)) > 0
    ensures Count(Run(w, actions).db.events, Logged(id, s)) == 0
    ensures s in {Bounced, Complained} ==> Count(Run(w, actions).db.rows, RowOf(id)) == 0
  {
    RunKeepsInv(w, actions);
    OneEventPerRank(w, actions, id, s, s);
    if s in {Bounced, Complained} {
      var t := if s == Bounced then Complained else Bounced;
      Conservation(w, actions, id, s);
      Conservation(w, actions, id, t);
      OneWritePerRank(Run(w, actions).writes, id, s, t);
      OwesIsBouncedOrComplained(Run(w, actions).db.events, id);
    }
  }

  /** Once nothing is under way for it, a status the processor entered has its one
      event exactly when the AddEvent did not fail. */
  lemma {:induction false} EnteredIsLoggedIff(w: World, actions: seq<Action>, id: Uuid, s: Status)
    requires Fresh(w)
    requires var w' := Run(w, actions);
      Count(w'.calls, AboutToLog(id, s)) == 0 && Count(w'.writes, Entered(id, s)) > 0
    ensures var w' := Run(w, actions);
      Count(w'.db.events, Logged(id, s)) == 1 <==> Count(w'.lost, Logged(id, s)) == 0
  {
    Conservation(w, actions, id, s);
    OneEventPerRank(w, actions, id, s, s);
  }

  /** Likewise a logged hard bounce or complaint has its one row exactly when the
      insertion did not fail. */
  lemma {:induction false} OwedIsSuppressedIff(w: World, actions: seq<Action>, id: Uuid)
    requires Fresh(w)
    requires var w' := Run(w, actions);
      Count(w'.calls, AboutToSuppress(id)) == 0 && Count(w'.db.events, Owes(id)) > 0
    ensures var w' := Run(w, actions);
      Count(w'.db.rows, RowOf(id)) == 1 <==> Count(w'.missed, Equal(id)) == 0
  {
    RunKeepsInv(w, actions);
    Conservation(w, actions, id, Bounced);
    OneEventPerRank(w, actions, id, Bounced, Complained);
    OwesIsBouncedOrComplained(Run(w, actions).db.events, id);
  }

  // ------------------------------------------------------ the code, run alone

  /** Which store calls succeed during one call of the processor. */
  datatype Faults = Faults(lookupOk: bool, updateOk: bool, addEventOk: bool, suppressOk: bool)

  function OkFor(pc: Pc, f: Faults): bool {
    match pc
    case Updating(_, _) => f.updateOk
    case Logging(_, _) => f.addEventOk
    case Suppressing(_) => f.suppressOk
    case _ => f.lookupOk
  }

  function SoloStep(w: World, f: Faults): World
    requires |w.calls| == 1
  {
    CallStep(w, 0, OkFor(w.calls[0].pc, f))
  }

  function SoloSteps(w: World, f: Faults, n: nat): (w': World)
    requires |w.calls| == 1
    ensures |w'.calls| == 1
    decreases n
  {
    if n == 0 then w else SoloSteps(SoloStep(w, f), f, n - 1)
  }

  /** One call with the store to itself: read, write, log, suppress. */
  function Solo(db: Db, entry: Entry, event: ProviderEvent, f: Faults): (w: World)
    ensures |w.calls| == 1
  {
    SoloSteps(World(db, [Call(entry, event, Reading)], [], [], []), f, 4)
  }

  lemma {:induction false} SoloStepsAreARun(w: World, f: Faults, n: nat)
    requires |w.calls| == 1
    ensures exists actions :: SoloSteps(w, f, n) == Run(w, actions)
    decreases n
  {
    if n == 0 {
      assert Run(w, []) == w;
    } else {
      SoloStepsAreARun(SoloStep(w, f), f, n - 1);
      var rest :| SoloSteps(w, f, n) == Run(SoloStep(w, f), rest);
      var first := Advance(0, OkFor(w.calls[0].pc, f));
      assert ([first] + rest)[1..] == rest;
      assert Run(w, [first] + rest) == Run(SoloStep(w, f), rest);
    }
  }

  lemma {:induction false} CallAloneIsARun(db: Db, call: Call, f: Faults, n: nat)
    requires call.pc == Reading
    ensures exists actions ::
      SoloSteps(World(db, [call], [], [], []), f, n) == Run(World(db, [], [], [], []), actions)
  {
    var w0, w1 := World(db, [], [], [], []), World(db, [call], [], [], []);
    SoloStepsAreARun(w1, f, n);
    var rest :| SoloSteps(w1, f, n) == Run(w1, rest);
    var spawn := Spawn(call.entry, call.event);
    assert Next(w0, spawn) == w1;
    assert ([spawn] + rest)[1..] == rest;
    assert Run(w0, [spawn] + rest) == Run(w1, rest);
  }

  /** What the methods below do is one schedule of the interleaved world. */
  lemma {:induction false} SoloIsARun(db: Db, entry: Entry, event: ProviderEvent, f: Faults)
    ensures exists actions :: Solo(db, entry, event, f) == Run(World(db, [], [], [], []), actions)
  {
    CallAloneIsARun(db, Call(entry, event, Reading), f, 4);
  }

  lemma {:induction false} SoloUnfolds(db: Db, entry: Entry, event: ProviderEvent, f: Faults)
    ensures var w := World(db, [Call(entry, event, Reading)], [], [], []);
      Solo(db, entry, event, f) == SoloStep(SoloStep(SoloStep(SoloStep(w, f), f), f), f)
  {
    var w := World(db, [Call(entry, event, Reading)], [], [], []);
    var w2 := SoloStep(SoloStep(w, f), f);
    assert SoloSteps(w, f, 4) == SoloSteps(w2, f, 2);
  }

  // ------------------------------------------------------- what one call achieves

  /** The transitions: out of processing by the worker, and forward from sent, opens
      from delivered only. */
  lemma {:induction false} TransitionsAre(from: Status, to: Status)
    ensures IsValidTransition(from, to) <==>
      || (from == Processing && to in {Sent, Failed})
      || (from in {Sent, Delivered, Opened} && to in {Delivered, Opened, Bounced, Complained}
          && Rank(from) < Rank(to) && (to == Opened ==> from == Delivered))
  {
  }

  /** The provider events an email in a status takes from the webhook. */
  predicate Takes(s: Status, t: EventType) {
    match t
    case EventDelivered => s == Sent
    case EventOpened => s == Delivered
    case EventBounced => s in {Sent, Delivered, Opened}
    case EventComplained => s in {Sent, Delivered, Opened}
    case Unrecognised(_) => false
  }

  /** The event is named after the status it enters. */
  predicate Names(t: EventType, s: Status) {
    || (t == EventDelivered && s == Delivered) || (t == EventOpened && s == Opened)
    || (t == EventBounced && s == Bounced) || (t == EventComplained && s == Complained)
  }

  /** The suppression rows an email's event calls for. */
  function RowsDue(t: EventType, bounceType: Option<string>, id: Uuid, email: Email): seq<SuppressionRow> {
    if t == EventBounced && bounceType == Some("hard") then [GlobalRow(email.recipient, id)]
    else if t == EventComplained then [WorkspaceRow(email.workspace, email.recipient, id)]
    else []
  }

  /** From `db` to `db'`, email `id` entered the status its event names, and nothing
      else happened but what `events` and `rows` add. */
  predicate Entering(db: Db, db': Db, id: Uuid, s: Status, events: seq<EmailEvent>, rows: seq<SuppressionRow>)
    requires id in db.emails
  {
    db' == Db(
      db.emails[id := Email(db.emails[id].recipient, db.emails[id].workspace, s)], db.byMessage,
      db.events + events, db.rows + rows)
  }

  /** Process, whatever fails: an event the email does not take changes nothing, and
      one it takes enters its status, is logged once and writes the row it calls for,
      up to the first failure. */
  lemma {:induction false} ProcessDoes(db: Db, event: ProviderEvent, f: Faults, s: Status)
    requires event.messageId in db.byMessage && db.byMessage[event.messageId] in db.emails
    requires Takes(db.emails[db.byMessage[event.messageId]].status, event.etype) ==> Names(event.etype, s)
    ensures var w, id := Solo(db, ByMessage, event, f), db.byMessage[event.messageId];
      var email := db.emails[id];
      if !f.lookupOk then w.db == db && w.calls[0].pc == Returned(false)
      else if !Takes(email.status, event.etype) then w.db == db && w.calls[0].pc == Returned(true)
      else if !f.updateOk then w.db == db && w.calls[0].pc == Returned(false)
      else
        var logged := EmailEvent(id, s, ProviderWebhook, event.bounceType, true);
        var rows := if f.suppressOk then RowsDue(event.etype, event.bounceType, id, email) else [];
        if f.addEventOk then Entering(db, w.db, id, s, [logged], rows) && w.calls[0].pc == Returned(true)
        else Entering(db, w.db, id, s, [], []) && w.calls[0].pc == Returned(false)
  {
    SoloUnfolds(db, ByMessage, event, f);
    var id := db.byMessage[event.messageId];
    if f.lookupOk && Takes(db.emails[id].status, event.etype) {
      ProcessSteps(db, event, f, id, s);
    }
  }

  lemma {:induction false} ProcessSteps(db: Db, event: ProviderEvent, f: Faults, id: Uuid, s: Status)
    requires event.messageId in db.byMessage && db.byMessage[event.messageId] == id && id in db.emails
    requires f.lookupOk && Takes(db.emails[id].status, event.etype) && Names(event.etype, s)
    ensures var w := Solo(db, ByMessage, event, f);
      if !f.updateOk then w.db == db && w.calls[0].pc == Returned(false)
      else
        var logged := EmailEvent(id, s, ProviderWebhook, event.bounceType, true);
        var rows := if f.suppressOk then RowsDue(event.etype, event.bounceType, id, db.emails[id]) else [];
        if f.addEventOk then Entering(db, w.db, id, s, [logged], rows) && w.calls[0].pc == Returned(true)
        else Entering(db, w.db, id, s, [], []) && w.calls[0].pc == Returned(false)
  {
    SoloUnfolds(db, ByMessage, event, f);
    var c := Call(ByMessage, event, Reading);
    var w0 := World(db, [c], [], [], []);
    var w1 := SoloStep(w0, f);
    assert w1.calls == [c.(pc := Updating(id, db.emails[id].status))] && w1.db == db;
    var w2 := SoloStep(w1, f);
    if f.updateOk {
      assert w2.calls == [c.(pc := Logging(id, true))] && Entering(db, w2.db, id, s, [], []);
      var w3 := SoloStep(w2, f);
      if f.addEventOk {
        assert w3.calls == [c.(pc := Suppressing(id))];
        assert Entering(db, w3.db, id, s, [EmailEvent(id, s, ProviderWebhook, event.bounceType, true)], []);
      } else {
        assert w3.calls == [c.(pc := Returned(false))] && w3.db == w2.db;
      }
    } else {
      assert w2.calls == [c.(pc := Returned(false))] && w2.db == db;
    }
  }

  /** A message id nobody has is an error and changes nothing. */
  lemma {:induction false} UnknownMessageDoesNothing(db: Db, event: ProviderEvent, f: Faults)
    requires event.messageId in db.byMessage ==> db.byMessage[event.messageId] !in db.emails
    ensures var w := Solo(db, ByMessage, event, f); w.db == db && w.calls[0].pc == Returned(false)
  {
    SoloUnfolds(db, ByMessage, event, f);
  }

  /** What one pixel call achieves: from `db` to `w`, with or without a status write. */
  predicate DirectOutcome(db: Db, w: World, id: Uuid, event: ProviderEvent, f: Faults, s: Status, writes: bool)
    requires id in db.emails && |w.calls| == 1
  {
    var logged := EmailEvent(id, s, OpenTrackingPixel, event.bounceType, writes);
    if writes && !f.updateOk then w.db == db && w.calls[0].pc == Returned(false)
    else
      && Entering(db, w.db, id, if writes then s else db.emails[id].status, if f.addEventOk then [logged] else [], [])
      && w.calls[0].pc == Returned(f.addEventOk)
  }

  lemma {:induction false} DirectWrites(db: Db, id: Uuid, event: ProviderEvent, f: Faults, s: Status)
    requires id in db.emails && f.lookupOk && Names(event.etype, s)
    requires var status := db.emails[id].status;
      if event.etype == EventOpened then status in {Sent, Delivered} else Takes(status, event.etype)
    ensures DirectOutcome(db, Solo(db, Direct(id), event, f), id, event, f, s, true)
  {
    SoloUnfolds(db, Direct(id), event, f);
    var c := Call(Direct(id), event, Reading);
    var w0 := World(db, [c], [], [], []);
    var w1 := SoloStep(w0, f);
    assert w1.calls == [c.(pc := Updating(id, db.emails[id].status))] && w1.db == db;
    var w2 := SoloStep(w1, f);
    if f.updateOk {
      assert w2.calls == [c.(pc := Logging(id, true))] && Entering(db, w2.db, id, s, [], []);
      assert SoloStep(w2, f).calls == [c.(pc := Returned(f.addEventOk))];
    } else {
      assert w2.calls == [c.(pc := Returned(false))] && w2.db == db;
    }
  }

  lemma {:induction false} DirectOnlyLogs(db: Db, id: Uuid, event: ProviderEvent, f: Faults)
    requires id in db.emails && f.lookupOk && event.etype == EventOpened && db.emails[id].status !in {Sent, Delivered}
    ensures DirectOutcome(db, Solo(db, Direct(id), event, f), id, event, f, Opened, false)
  {
    SoloUnfolds(db, Direct(id), event, f);
    var c := Call(Direct(id), event, Reading);
    var w0 := World(db, [c], [], [], []);
    var w1 := SoloStep(w0, f);
    assert w1.calls == [c.(pc := Logging(id, false))] && w1.db == db;
    var w2 := SoloStep(w1, f);
    assert w2.calls == [c.(pc := Returned(f.addEventOk))];
  }

  /** ProcessDirect: an open is written from sent and delivered and always logged;
      other events are as for the webhook; no suppression row is ever written. */
  lemma {:induction false} ProcessDirectDoes(db: Db, id: Uuid, event: ProviderEvent, f: Faults, s: Status)
    requires id in db.emails && f.lookupOk
    requires !event.etype.Unrecognised? ==> Names(event.etype, s)
    ensures var w, status := Solo(db, Direct(id), event, f), db.emails[id].status;
      if event.etype == EventOpened then DirectOutcome(db, w, id, event, f, s, status in {Sent, Delivered})
      else if Takes(status, event.etype) then DirectOutcome(db, w, id, event, f, s, true)
      else w.db == db && w.calls[0].pc == Returned(true)
  {
    var status := db.emails[id].status;
    if event.etype == EventOpened && status !in {Sent, Delivered} {
      DirectOnlyLogs(db, id, event, f);
    } else if event.etype == EventOpened || Takes(status, event.etype) {
      DirectWrites(db, id, event, f, s);
    } else {
      SoloUnfolds(db, Direct(id), event, f);
    }
  }

  /** A hard bounce whose AddEvent fails: the email is bounced, nothing is logged and
      nobody suppressed; and redelivering the bounce, all working, changes nothing. */
  lemma {:induction false} BounceCanBeLost(db: Db, messageId: string)
    requires messageId in db.byMessage && db.byMessage[messageId] in db.emails
    requires db.emails[db.byMessage[messageId]].status == Sent
    ensures var id, bounce := db.byMessage[messageId], ProviderEvent(EventBounced, messageId, Some("hard"));
      var db' := Solo(db, ByMessage, bounce, Faults(true, true, false, true)).db;
      && db' == SetStatus(db, id, Bounced)
      && Solo(db', ByMessage, bounce, Faults(true, true, true, true)).db == db'
  {
    var bounce := ProviderEvent(EventBounced, messageId, Some("hard"));
    SoloUnfolds(db, ByMessage, bounce, Faults(true, true, false, true));
    SoloUnfolds(SetStatus(db, db.byMessage[messageId], Bounced), ByMessage, bounce, Faults(true, true, true, true));
  }

  class EventProcessor {
    const byMessage: map<string, Uuid>
    var emails: map<Uuid, Email>
    var events: seq<EmailEvent>
    var rows: seq<SuppressionRow>

    constructor (db: Db)
      ensures Store() == db
    {
      byMessage, emails, events, rows := db.byMessage, db.emails, db.events, db.rows;
    }

    function Store(): Db
      reads this
    {
      Db(emails, byMessage, events, rows)
    }

    method UpdateStatus(id: Uuid, newStatus: Status, expected: Status, reachable: bool) returns (ok: bool)
      modifies this`emails
      ensures ok == (reachable && id in old(emails) && old(emails)[id].status == expected)
      ensures emails == if ok then old(emails)[id := old(emails)[id].(status := newStatus)] else old(emails)
    {
      ok := reachable && id in emails && emails[id].status == expected;
      if ok {
        emails := emails[id := emails[id].(status := newStatus)];
      }
    }

    method AddEvent(event: EmailEvent, reachable: bool) returns (ok: bool)
      modifies this`events
      ensures ok == reachable
      ensures events == if ok then old(events) + [event] else old(events)
    {
      ok := reachable;
      if ok {
        events := events + [event];
      }
    }

    method HandleSuppression(event: ProviderEvent, id: Uuid, email: Email, reachable: bool)
      modifies this`rows
      ensures rows == old(rows) +
        (if reachable && RowFor(event, id, email).Some? then [RowFor(event, id, email).value] else [])
    {
      match event.etype {
        case EventBounced =>
          if event.bounceType != Some("hard") {
            return;
          }
          if reachable {
            rows := rows + [GlobalRow(email.recipient, id)];
          }
        case EventComplained =>
          if reachable {
            rows := rows + [WorkspaceRow(email.workspace, email.recipient, id)];
          }
        case _ =>
      }
    }

    method Process(event: ProviderEvent, f: Faults) returns (ok: bool)
      modifies this
      ensures Store() == Solo(old(Store()), ByMessage, event, f).db
      ensures Solo(old(Store()), ByMessage, event, f).calls[0].pc == Returned(ok)
    {
      SoloUnfolds(Store(), ByMessage, event, f);
      if !f.lookupOk || event.messageId !in byMessage || byMessage[event.messageId] !in emails {
        return false;
      }
      var id := byMessage[event.messageId];
      var email := emails[id];
      var mapped := MapEventToStatus(event.etype);
      if mapped.None? {
        return true;
      }
      var status := mapped.value;
      if !IsValidTransition(email.status, status) {
        return true;
      }
      ok := UpdateStatus(id, status, email.status, f.updateOk);
      if !ok {
        return;
      }
      ok := AddEvent(EmailEvent(id, status, ProviderWebhook, event.bounceType, true), f.addEventOk);
      if !ok {
        return;
      }
      HandleSuppression(event, id, email, f.suppressOk);
    }

    method ProcessDirect(id: Uuid, event: ProviderEvent, f: Faults) returns (ok: bool)
      modifies this
      ensures Store() == Solo(old(Store()), Direct(id), event, f).db
      ensures Solo(old(Store()), Direct(id), event, f).calls[0].pc == Returned(ok)
    {
      SoloUnfolds(Store(), Direct(id), event, f);
      if !f.lookupOk || id !in emails {
        return false;
      }
      var email := emails[id];
      var mapped := MapEventToStatus(event.etype);
      if mapped.None? {
        return true;
      }
      var status := mapped.value;
      var advanced := true;
      if event.etype == EventOpened {
        if email.status == Sent || email.status == Delivered {
          ok := UpdateStatus(id, status, email.status, f.updateOk);
          if !ok {
            return;
          }
        } else {
          advanced := false;
        }
      } else {
        if !IsValidTransition(email.status, status) {
          return true;
        }
        ok := UpdateStatus(id, status, email.status, f.updateOk);
        if !ok {
          return;
        }
      }
      ok := AddEvent(EmailEvent(id, status, OpenTrackingPixel, event.bounceType, advanced), f.addEventOk);
    }
  }
}
