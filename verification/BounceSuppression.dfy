/** From a provider event to later sends: the rows handleSuppression writes
    (internal/service/event_processor.go) against the lookups of the evaluator
    (internal/service/send_suppression.go). The first writes the recipient as it was
    sent to, the second asks for canonical addresses only. */
module BounceSuppression {
  import opened Common
  import E = EventProcessing
  import opened Suppression

  /** suppression_global joins every lookup, suppression_workspace its own workspace's. */
  predicate Applies(row: E.SuppressionRow, ws: Uuid) {
    row.GlobalRow? || row.workspace == ws
  }

  function Suppressed(rows: seq<E.SuppressionRow>, ws: Uuid, global: bool): set<Address> {
    set row | row in rows && row.GlobalRow? == global && Applies(row, ws) :: Address(row.address)
  }

  /** What the two tables hold for one workspace; the global reason comes first. */
  function TableOf(rows: seq<E.SuppressionRow>, ws: Uuid): map<Address, string> {
    (map a | a in Suppressed(rows, ws, false) :: "complaint") + map a | a in Suppressed(rows, ws, true) :: "hard_bounce"
  }

  /** Would a later send in this workspace be kept from the address? */
  predicate IsBlocked(canon: Address -> Address, rows: seq<E.SuppressionRow>, ws: Uuid, a: Address) {
    Decide(canon, TableOf(rows, ws), {}, a).suppressed
  }

  lemma {:induction false} BlockedIff(canon: Address -> Address, rows: seq<E.SuppressionRow>, ws: Uuid, a: Address)
    ensures IsBlocked(canon, rows, ws, a) <==>
      canon(a) != EMPTY && exists row :: row in rows && Applies(row, ws) && Address(row.address) == canon(a)
  {
    assert canon(a) in TableOf(rows, ws) <==>
      canon(a) in Suppressed(rows, ws, false) || canon(a) in Suppressed(rows, ws, true);
  }

  /** One more row blocks exactly the addresses whose canonical form is the text of
      the row, where the row applies. */
  lemma {:induction false} RowBlocksIff(
      canon: Address -> Address, rows: seq<E.SuppressionRow>, row: E.SuppressionRow, ws: Uuid, a: Address)
    ensures IsBlocked(canon, rows + [row], ws, a) <==>
      IsBlocked(canon, rows, ws, a) || (Applies(row, ws) && canon(a) == Address(row.address) && canon(a) != EMPTY)
  {
    BlockedIff(canon, rows, ws, a);
    BlockedIff(canon, rows + [row], ws, a);
    assert forall r :: r in rows + [row] <==> r in rows || r == row;
  }

  const NO_FAULTS := E.Faults(true, true, true, true)

  /** A hard bounce, processed without any failure, keeps later sends of every
      workspace from its recipient exactly when something did already or the recipient
      was written in canonical form. */
  lemma {:induction false} HardBounceBlocksIff(canon: Address -> Address, db: E.Db, messageId: string, ws: Uuid)
    requires messageId in db.byMessage && db.byMessage[messageId] in db.emails
    requires db.emails[db.byMessage[messageId]].status in {E.Sent, E.Delivered, E.Opened}
    ensures var a := Address(db.emails[db.byMessage[messageId]].recipient);
      var bounce := E.ProviderEvent(E.EventBounced, messageId, Some("hard"));
      IsBlocked(canon, E.Solo(db, E.ByMessage, bounce, NO_FAULTS).db.rows, ws, a) <==>
        IsBlocked(canon, db.rows, ws, a) || (canon(a) == a && a != EMPTY)
  {
    var id := db.byMessage[messageId];
    var bounce := E.ProviderEvent(E.EventBounced, messageId, Some("hard"));
    E.ProcessDoes(db, bounce, NO_FAULTS, E.Bounced);
    RowBlocksIff(canon, db.rows, E.GlobalRow(db.emails[id].recipient, id), ws, Address(db.emails[id].recipient));
  }

  /** A complaint does so in the email's own workspace only. */
  lemma {:induction false} ComplaintBlocksIff(canon: Address -> Address, db: E.Db, messageId: string, ws: Uuid)
    requires messageId in db.byMessage && db.byMessage[messageId] in db.emails
    requires db.emails[db.byMessage[messageId]].status in {E.Sent, E.Delivered, E.Opened}
    ensures var email := db.emails[db.byMessage[messageId]];
      var a := Address(email.recipient);
      var complaint := E.ProviderEvent(E.EventComplained, messageId, None);
      IsBlocked(canon, E.Solo(db, E.ByMessage, complaint, NO_FAULTS).db.rows, ws, a) <==>
        IsBlocked(canon, db.rows, ws, a) || (ws == email.workspace && canon(a) == a && a != EMPTY)
  {
    var id := db.byMessage[messageId];
    var email := db.emails[id];
    var complaint := E.ProviderEvent(E.EventComplained, messageId, None);
    E.ProcessDoes(db, complaint, NO_FAULTS, E.Complained);
    RowBlocksIff(canon, db.rows, E.WorkspaceRow(email.workspace, email.recipient, id), ws, Address(email.recipient));
  }

  /** "Bob@Example.com" bounces hard, and the next send to him goes out all the same. */
  lemma {:induction false} BobIsWrittenToAgain(canon: Address -> Address, db: E.Db, messageId: string, ws: Uuid)
    requires canon(Address("Bob@Example.com")) == Address("bob@example.com")
    requires messageId in db.byMessage && db.byMessage[messageId] in db.emails && db.rows == []
    requires db.emails[db.byMessage[messageId]] == E.Email("Bob@Example.com", ws, E.Sent)
    ensures var bounce := E.ProviderEvent(E.EventBounced, messageId, Some("hard"));
      !IsBlocked(canon, E.Solo(db, E.ByMessage, bounce, NO_FAULTS).db.rows, ws, Address("Bob@Example.com"))
  {
    var bob := Address("Bob@Example.com");
    HardBounceBlocksIff(canon, db, messageId, ws);
    assert "Bob@Example.com"[0] != "bob@example.com"[0];
    assert canon(bob) != bob;
    BlockedIff(canon, [], ws, bob);
  }

  /** In every run, a row the processor wrote keeps later sends from the recipient of
      its email, on its own, exactly when that recipient was in canonical form. */
  lemma {:induction false} WrittenRowBlocksIff(
      canon: Address -> Address, w: E.World, actions: seq<E.Action>, i: nat, ws: Uuid)
    requires E.Fresh(w) && i < |E.Run(w, actions).db.rows| && Applies(E.Run(w, actions).db.rows[i], ws)
    ensures var db := E.Run(w, actions).db;
      && db.rows[i].sourceEmail in db.emails
      && var a := Address(db.emails[db.rows[i].sourceEmail].recipient);
         IsBlocked(canon, [db.rows[i]], ws, a) <==> canon(a) == a && a != EMPTY
  {
    E.RowsStayJustified(w, actions, [], i);
    assert actions + [] == actions;
    var db := E.Run(w, actions).db;
    BlockedIff(canon, [db.rows[i]], ws, Address(db.emails[db.rows[i].sourceEmail].recipient));
  }
}
