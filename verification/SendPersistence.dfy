/** Writing one recipient's email: internal/service/send_persistence.go, on the
    transactional path. */
module SendPersistence {
  import opened Common
  import opened Suppression

  datatype EmailStatus = Queued | Suppressed

  /** `body` stands for the rendered subject and body. */
  datatype EmailRow = EmailRow(
    trackingId: string, recipient: Address, cc: seq<Address>, bcc: seq<Address>, body: string, status: EmailStatus)

  datatype SendJob = SendJob(emailId: Uuid, trackingId: string, adapterId: Uuid)

  datatype EmailEvent = QueuedEvent(emailId: Uuid) | SuppressedEvent(emailId: Uuid, reason: string)

  datatype Db = Db(emails: map<Uuid, EmailRow>, jobs: seq<SendJob>, events: seq<EmailEvent>)

  /** Which statements of one transaction the database accepts. */
  datatype TxFaults = TxFaults(beginOk: bool, createOk: bool, enqueueOk: bool, eventOk: bool, commitOk: bool)

  // ------------------------------------------------- emails, jobs and events in step

  function JobIds(jobs: seq<SendJob>): seq<Uuid> {
    seq(|jobs|, i requires 0 <= i < |jobs| => jobs[i].emailId)
  }

  function EventIds(events: seq<EmailEvent>, queued: bool): seq<Uuid> {
    if events == [] then []
    else
      var last := events[|events| - 1];
      EventIds(events[..|events| - 1], queued) + if last.QueuedEvent? == queued then [last.emailId] else []
  }

  function WithStatus(db: Db, s: EmailStatus): set<Uuid> {
    set id | id in db.emails && db.emails[id].status == s
  }

  /** One job per queued email, carrying its tracking id; a suppressed email has none. */
  ghost predicate JobsInStep(db: Db) {
    && NoDuplicates(JobIds(db.jobs)) && Elements(JobIds(db.jobs)) == WithStatus(db, Queued)
    && (forall job | job in db.jobs :: job.emailId in db.emails && db.emails[job.emailId].trackingId == job.trackingId)
  }

  /** One event of its own kind per email. */
  ghost predicate EventsInStep(db: Db) {
    && NoDuplicates(EventIds(db.events, true)) && Elements(EventIds(db.events, true)) == WithStatus(db, Queued)
    && NoDuplicates(EventIds(db.events, false)) && Elements(EventIds(db.events, false)) == WithStatus(db, Suppressed)
  }

  /** No email without its job and event, no job or event without its email. */
  ghost predicate InStep(db: Db) {
    JobsInStep(db) && EventsInStep(db)
  }

  function Queue(db: Db, id: Uuid, row: EmailRow, adapterId: Uuid): Db {
    Db(
      db.emails[id := row],
      db.jobs + [SendJob(id, row.trackingId, adapterId)],
      db.events + [QueuedEvent(id)])
  }

  function Suppress(db: Db, id: Uuid, row: EmailRow, reason: string): Db {
    Db(db.emails[id := row], db.jobs, db.events + [SuppressedEvent(id, reason)])
  }

  lemma {:induction false} NoDuplicatesAppend<T>(s: seq<T>, x: T)
    requires NoDuplicates(s) && x !in s
    ensures NoDuplicates(s + [x]) && Elements(s + [x]) == Elements(s) + {x}
  {
    ElementsOfAppend(s, [x]);
  }

  lemma {:induction false} EventIdsAppend(events: seq<EmailEvent>, e: EmailEvent, queued: bool)
    ensures EventIds(events + [e], queued) == EventIds(events, queued) + if e.QueuedEvent? == queued then [e.emailId] else []
  {
    assert (events + [e])[..|events|] == events;
  }

  lemma {:induction false} QueueStatuses(db: Db, id: Uuid, row: EmailRow, adapterId: Uuid)
    requires id !in db.emails && row.status == Queued
    ensures WithStatus(Queue(db, id, row, adapterId), Queued) == WithStatus(db, Queued) + {id}
    ensures WithStatus(Queue(db, id, row, adapterId), Suppressed) == WithStatus(db, Suppressed)
  {
  }

  lemma {:induction false} SuppressStatuses(db: Db, id: Uuid, row: EmailRow, reason: string)
    requires id !in db.emails && row.status == Suppressed
    ensures WithStatus(Suppress(db, id, row, reason), Queued) == WithStatus(db, Queued)
    ensures WithStatus(Suppress(db, id, row, reason), Suppressed) == WithStatus(db, Suppressed) + {id}
  {
  }

  lemma {:induction false} QueueKeepsJobs(db: Db, id: Uuid, row: EmailRow, adapterId: Uuid)
    requires JobsInStep(db) && id !in db.emails && row.status == Queued
    ensures JobsInStep(Queue(db, id, row, adapterId))
  {
    QueueStatuses(db, id, row, adapterId);
    assert id !in WithStatus(db, Queued) && id !in Elements(JobIds(db.jobs));
    assert JobIds(Queue(db, id, row, adapterId).jobs) == JobIds(db.jobs) + [id];
    NoDuplicatesAppend(JobIds(db.jobs), id);
  }

  lemma {:induction false} EventKeepsEvents(db: Db, db': Db, id: Uuid, e: EmailEvent)
    requires EventsInStep(db) && id !in db.emails && e.emailId == id && db'.events == db.events + [e]
    requires WithStatus(db', Queued) == WithStatus(db, Queued) + if e.QueuedEvent? then {id} else {}
    requires WithStatus(db', Suppressed) == WithStatus(db, Suppressed) + if e.QueuedEvent? then {} else {id}
    ensures EventsInStep(db')
  {
    EventIdsAppend(db.events, e, true);
    EventIdsAppend(db.events, e, false);
    var ids := EventIds(db.events, e.QueuedEvent?);
    assert id !in WithStatus(db, Queued) && id !in WithStatus(db, Suppressed);
    assert id !in Elements(ids);
    NoDuplicatesAppend(ids, id);
  }

  lemma {:induction false} QueueKeepsInStep(db: Db, id: Uuid, row: EmailRow, adapterId: Uuid)
    requires InStep(db) && id !in db.emails && row.status == Queued
    ensures InStep(Queue(db, id, row, adapterId))
  {
    QueueKeepsJobs(db, id, row, adapterId);
    QueueStatuses(db, id, row, adapterId);
    EventKeepsEvents(db, Queue(db, id, row, adapterId), id, QueuedEvent(id));
  }

  lemma {:induction false} SuppressKeepsInStep(db: Db, id: Uuid, row: EmailRow, reason: string)
    requires InStep(db) && id !in db.emails && row.status == Suppressed
    ensures InStep(Suppress(db, id, row, reason))
  {
    SuppressStatuses(db, id, row, reason);
    EventKeepsEvents(db, Suppress(db, id, row, reason), id, SuppressedEvent(id, reason));
  }

  // --------------------------------------------------------------------- writer

  /** The primary key makes creating an existing id fail like any other statement. */
  predicate QueuedOk(db: Db, id: Uuid, f: TxFaults) {
    f.beginOk && f.createOk && id !in db.emails && f.enqueueOk && f.eventOk && f.commitOk
  }

  predicate SuppressedOk(db: Db, id: Uuid, f: TxFaults) {
    f.beginOk && f.createOk && id !in db.emails && f.eventOk && f.commitOk
  }

  class SendPersistenceWriter {
    /** The committed state. */
    var db: Db

    constructor (db: Db)
      ensures this.db == db
    {
      this.db := db;
    }

    method CreateQueued(id: Uuid, row: EmailRow, adapterId: Uuid, f: TxFaults) returns (ok: bool)
      modifies this
      ensures ok == QueuedOk(old(db), id, f)
      ensures db == if ok then Queue(old(db), id, row, adapterId) else old(db)
    {
      if !f.beginOk {
        return false;
      }
      var tx := db;
      if !f.createOk || id in tx.emails {
        return false;
      }
      tx := tx.(emails := tx.emails[id := row]);
      if !f.enqueueOk {
        return false;
      }
      tx := tx.(jobs := tx.jobs + [SendJob(id, row.trackingId, adapterId)]);
      if !f.eventOk {
        return false;
      }
      tx := tx.(events := tx.events + [QueuedEvent(id)]);
      if !f.commitOk {
        return false;
      }
      db := tx;
      return true;
    }

    method CreateSuppressed(id: Uuid, row: EmailRow, reason: string, f: TxFaults) returns (ok: bool)
      modifies this
      ensures ok == SuppressedOk(old(db), id, f)
      ensures db == if ok then Suppress(old(db), id, row, reason) else old(db)
    {
      if !f.beginOk {
        return false;
      }
      var tx := db;
      if !f.createOk || id in tx.emails {
        return false;
      }
      tx := tx.(emails := tx.emails[id := row]);
      if !f.eventOk {
        return false;
      }
      tx := tx.(events := tx.events + [SuppressedEvent(id, reason)]);
      if !f.commitOk {
        return false;
      }
      db := tx;
      return true;
    }
  }
}
