// The bot store as an object, and the service and worker calls on it. Each call is tied
// to the table function that says what it does.
module BotService {
  import opened Outcomes
  import opened BotUpdates
  import opened BotTables
  import Backoff

  // The named row has one more attempt and its new schedule; every other row is as it was.
  ghost predicate OneRescheduled(before: seq<QueueEntry>, after: seq<QueueEntry>, p: Retry) {
    && |after| == |before|
    && forall i :: 0 <= i < |before| ==>
         if before[i].botAccountID == p.bot && before[i].updateID == p.updateID
         then after[i] == Rescheduled(before[i], p) else after[i] == before[i]
  }

  lemma RetriedReschedules(rows: seq<QueueEntry>, p: Retry)
    ensures OneRescheduled(rows, Retried(rows, p), p)
  {
    if rows != [] {
      RetriedAt(rows, p, 0);
    }
    forall i | 0 <= i < |rows|
      ensures if rows[i].botAccountID == p.bot && rows[i].updateID == p.updateID
              then Retried(rows, p)[i] == Rescheduled(rows[i], p) else Retried(rows, p)[i] == rows[i]
    {
      RetriedAt(rows, p, i);
    }
  }

  class Store {
    var rows: seq<QueueEntry>
    var nextID: nat
    var webhooks: map<string, Webhook>
    var cursor: nat

    function View(): Tables
      reads this
    {
      Tables(rows, nextID, webhooks, cursor)
    }

    constructor (t: Tables)
      ensures View() == t
    {
      rows, nextID, webhooks, cursor := t.rows, t.nextID, t.webhooks, t.cursor;
    }

    // A transaction works on a copy of the tables.
    method Begin() returns (tx: Store)
      ensures fresh(tx) && tx.View() == View()
    {
      tx := new Store(View());
    }

    // Committing takes over the copy; a rollback keeps only the IDs drawn from the sequence.
    method End(tx: Store, commit: bool)
      requires tx != this
      modifies this
      ensures View() == if commit then tx.View() else old(View()).(nextID := tx.nextID)
    {
      if commit {
        rows, webhooks, cursor := tx.rows, tx.webhooks, tx.cursor;
      }
      nextID := tx.nextID;
    }

    method SaveUpdate(trim: string -> string, e: QueueEntry, now: Time) returns (ok: bool)
      modifies this
      ensures ok <==> BotTables.SaveUpdate(trim, old(View()), e, now).Ok?
      ensures View() == if ok then BotTables.SaveUpdate(trim, old(View()), e, now).value else old(View())
    {
      var n := NormalizeEntry(trim, e, now);
      if n.Err? {
        return false;
      }
      var i := 0;
      while i < |rows| && !SameKey(rows[i], n.value)
        invariant 0 <= i <= |rows|
        invariant forall k :: 0 <= k < i ==> !SameKey(rows[k], n.value)
      {
        i := i + 1;
      }
      if i == |rows| {
        rows := rows + [n.value.(updateID := nextID)];
      }
      nextID := nextID + 1;
      return true;
    }

    method DeleteMatching(sel: Selector) returns (deleted: bool)
      modifies this`rows
      ensures View() == Delete(old(View()), sel)
      ensures deleted <==> Holds(old(rows), sel)
    {
      var kept := [];
      deleted := false;
      for i := 0 to |rows|
        invariant kept == Without(rows[..i], sel)
        invariant deleted <==> exists k :: 0 <= k < i && Matches(sel, rows[k])
      {
        assert rows[..i + 1][..i] == rows[..i];
        if Matches(sel, rows[i]) {
          deleted := true;
        } else {
          kept := kept + [rows[i]];
        }
      }
      assert rows[..|rows|] == rows;
      rows := kept;
    }

    // The row gets one more attempt and its next schedule; every other row stays as it is.
    method RetryUpdate(p: Retry) returns (found: bool)
      modifies this`rows
      ensures View() == old(View()).(rows := Retried(old(rows), p))
      ensures found <==> Holds(old(rows), Exactly(p.bot, p.updateID))
      ensures OneRescheduled(old(rows), rows, p)
    {
      var updated := [];
      found := false;
      for i := 0 to |rows|
        invariant updated == Retried(rows[..i], p)
        invariant found <==> exists k :: 0 <= k < i && Matches(Exactly(p.bot, p.updateID), rows[k])
      {
        assert rows[..i + 1][..i] == rows[..i];
        var e := rows[i];
        if e.botAccountID == p.bot && e.updateID == p.updateID {
          found := true;
          e := e.(attempts := e.attempts + 1, nextAttemptAt := p.nextAttemptAt, lastError := p.lastError,
                  updatedAt := p.attemptedAt);
        }
        updated := updated + [e];
      }
      assert rows[..|rows|] == rows;
      RetriedReschedules(rows, p);
      rows := updated;
    }

    method PendingUpdates(q: Query) returns (entries: seq<QueueEntry>)
      ensures entries == Pending(rows, q)
    {
      entries := Pending(rows, q);
    }

    method SaveWebhook(trim: string -> string, w: Webhook, now: Time) returns (ok: bool)
      modifies this`webhooks
      ensures ok <==> BotTables.SaveWebhook(trim, old(View()), w, now).Ok?
      ensures View() == if ok then BotTables.SaveWebhook(trim, old(View()), w, now).value else old(View())
    {
      var saved := BotTables.SaveWebhook(trim, View(), w, now);
      ok := saved.Ok?;
      if ok {
        webhooks := saved.value.webhooks;
      }
    }

    method DeleteWebhookRow(bot: string) returns (found: bool)
      modifies this`webhooks
      ensures found <==> bot in old(webhooks)
      ensures View() == old(View()).(webhooks := old(webhooks) - {bot})
    {
      found := bot in webhooks;
      webhooks := webhooks - {bot};
    }

    // What other callers do to the tables while this one waits.
    method Become(t: Tables)
      modifies this
      ensures View() == t
    {
      rows, nextID, webhooks, cursor := t.rows, t.nextID, t.webhooks, t.cursor;
    }

    method SaveCursor(sequence: nat)
      modifies this`cursor
      ensures View() == BotTables.SaveCursor(old(View()), sequence)
    {
      if sequence > cursor {
        cursor := sequence;
      }
    }
  }

  // --- polling ---

  // clampLimit.
  function ClampLimit(limit: int, maximum: int): (r: int)
    ensures maximum >= 1 ==> 1 <= r <= maximum
    ensures 1 <= limit <= maximum ==> r == limit
  {
    var l := if limit <= 0 then maximum else limit;
    if maximum > 0 && l > maximum then maximum else l
  }

  function Numbered(entries: seq<QueueEntry>): seq<Update> {
    if entries == [] then [] else
    var last := entries[|entries| - 1];
    Numbered(entries[..|entries| - 1]) + [last.payload.(updateID := last.updateID)]
  }

  // updates.
  method Updates(entries: seq<QueueEntry>) returns (result: seq<Update>)
    ensures result == Numbered(entries)
  {
    result := [];
    for i := 0 to |entries|
      invariant result == Numbered(entries[..i])
    {
      assert entries[..i + 1][..i] == entries[..i];
      result := result + [entries[i].payload.(updateID := entries[i].updateID)];
    }
    assert entries[..|entries|] == entries;
  }

  lemma {:induction false} NumberedAt(entries: seq<QueueEntry>, i: nat)
    requires i < |entries|
    ensures |Numbered(entries)| == |entries|
    ensures Numbered(entries)[i] == entries[i].payload.(updateID := entries[i].updateID)
    decreases |entries|
  {
    var n := |entries| - 1;
    if i < n {
      NumberedAt(entries[..n], i);
    } else if n > 0 {
      NumberedAt(entries[..n], 0);
    }
  }

  datatype Polled = Conflict | Cancelled | Batch(updates: seq<Update>)

  // The end of one wait before the deadline: the caller has gone, or the tables have become t.
  datatype Wait = Gone | Elapsed(t: Tables)

  // What the long poll comes to: it looks, and looks again after each wait, until there is
  // something to return or no wait is left.
  function Looked(t: Tables, q: Query, waits: seq<Wait>): (Tables, Polled)
    decreases |waits|
  {
    var entries := Pending(t.rows, q);
    if entries != [] || waits == [] then (t, Batch(Numbered(entries)))
    else if waits[0].Gone? then (t, Cancelled)
    else Looked(waits[0].t, q, waits[1..])
  }

  // The answer is that of the first look that finds something, or of the last look.
  ghost predicate FirstFind(t: Tables, q: Query, waits: seq<Wait>, n: nat) {
    && n <= |waits|
    && (forall i :: 0 <= i < n ==> waits[i].Elapsed?)
    && (forall i :: 0 <= i < n ==> Pending(LookAt(t, waits, i).rows, q) == [])
    && (Pending(LookAt(t, waits, n).rows, q) != [] || n == |waits| || waits[n].Gone?)
  }

  function LookAt(t: Tables, waits: seq<Wait>, i: nat): Tables
    requires i <= |waits|
  {
    if i == 0 || waits[i - 1].Gone? then t else waits[i - 1].t
  }

  // The i-th look of a poll is look i - 1 of the poll that its first wait leaves.
  lemma {:induction false} LaterLook(t: Tables, waits: seq<Wait>, i: nat)
    requires 0 < i <= |waits| && waits[0].Elapsed? && waits[i - 1].Elapsed?
    ensures LookAt(t, waits, i) == LookAt(waits[0].t, waits[1..], i - 1)
  {
    if i > 1 {
      assert waits[1..][i - 2] == waits[i - 1];
    }
  }

  lemma {:induction false} FindLater(t: Tables, q: Query, waits: seq<Wait>, m: nat)
    requires waits != [] && waits[0].Elapsed? && Pending(t.rows, q) == [] && FirstFind(waits[0].t, q, waits[1..], m)
    ensures FirstFind(t, q, waits, m + 1) && LookAt(t, waits, m + 1) == LookAt(waits[0].t, waits[1..], m)
  {
    var rest := waits[1..];
    forall i | 0 <= i < m + 1
      ensures waits[i].Elapsed? && LookAt(t, waits, i + 1) == LookAt(waits[0].t, rest, i)
    {
      if i > 0 {
        assert rest[i - 1] == waits[i];
      }
      LaterLook(t, waits, i + 1);
    }
    forall i | 0 <= i < m + 1
      ensures Pending(LookAt(t, waits, i).rows, q) == []
    {
      if i > 0 {
        assert LookAt(t, waits, (i - 1) + 1) == LookAt(waits[0].t, rest, i - 1);
      }
    }
    assert m < |rest| ==> rest[m] == waits[m + 1];
  }

  lemma {:induction false} LookedIsFirstFind(t: Tables, q: Query, waits: seq<Wait>) returns (n: nat)
    ensures FirstFind(t, q, waits, n)
    ensures var found := LookAt(t, waits, n);
            Looked(t, q, waits) == (found, if Pending(found.rows, q) == [] && n < |waits| then Cancelled
                                           else Batch(Numbered(Pending(found.rows, q))))
    decreases |waits|
  {
    if Pending(t.rows, q) != [] || waits == [] || waits[0].Gone? {
      n := 0;
    } else {
      var m := LookedIsFirstFind(waits[0].t, q, waits[1..]);
      FindLater(t, q, waits, m);
      n := m + 1;
    }
  }

  // The update of a row: its payload under its ID.
  ghost predicate Presents(updates: seq<Update>, shown: seq<QueueEntry>) {
    && |updates| == |shown|
    && forall i :: 0 <= i < |shown| ==> updates[i] == shown[i].payload.(updateID := shown[i].updateID)
  }

  lemma {:induction false} NumberedPresents(shown: seq<QueueEntry>)
    ensures Presents(Numbered(shown), shown)
  {
    if shown != [] {
      NumberedAt(shown, 0);
    }
    forall i | 0 <= i < |shown|
      ensures Numbered(shown)[i] == shown[i].payload.(updateID := shown[i].updateID)
    {
      NumberedAt(shown, i);
    }
  }

  // What a long poll returns are the first rows asked for, in the tables as its last look finds them.
  lemma {:induction false} LookedIsRight(t: Tables, q: Query, waits: seq<Wait>)
    ensures !Looked(t, q, waits).1.Conflict?
    ensures waits == [] ==> Looked(t, q, waits).0 == t && Looked(t, q, waits).1.Batch?
    ensures var (end, polled) := Looked(t, q, waits);
            polled.Batch? && Valid(end) && Typed(end.rows) ==>
              exists shown :: FirstAskedFor(end.rows, q, shown) && Presents(polled.updates, shown)
  {
    var n := LookedIsFirstFind(t, q, waits);
    var (end, polled) := Looked(t, q, waits);
    NumberedPresents(Pending(end.rows, q));
    if Valid(end) && Typed(end.rows) {
      PendingIsFirst(end, q);
    }
  }

  // GetUpdates for an authenticated bot. `waits` is what each wait before the deadline brings;
  // there is none without a positive timeout. While a webhook with a URL is stored nothing is
  // returned and nothing is deleted. What is returned are the first rows of the bot of the types
  // the filter names; without waiting, the rows below the offset go and no others.
  method GetUpdates(store: Store, bot: string, offset: int, limit: int, maximum: int, allowed: seq<UpdateType>,
                    timeout: int, waits: seq<Wait>) returns (polled: Polled)
    modifies store
    ensures Hooked(old(store.View()), bot) ==> polled == Conflict && store.View() == old(store.View())
    ensures !Hooked(old(store.View()), bot) ==>
              (store.View(), polled) == Looked(Acknowledge(old(store.View()), bot, offset),
                                               Query(bot, 0, allowed, 0, ClampLimit(limit, maximum)),
                                               if timeout <= 0 then [] else waits)
    ensures polled.Conflict? <==> bot in old(store.webhooks) && old(store.webhooks)[bot].url != ""
    ensures polled.Batch? && Valid(store.View()) && Typed(store.rows) ==>
              exists shown :: FirstAskedFor(store.rows, Query(bot, 0, allowed, 0, ClampLimit(limit, maximum)), shown)
                              && Presents(polled.updates, shown)
    ensures !polled.Conflict? && timeout <= 0 ==> polled.Batch? && OnlyBelowGone(old(store.rows), store.rows, bot, offset)
  {
    if bot in store.webhooks && store.webhooks[bot].url != "" {
      return Conflict;
    }
    AcknowledgeIsExact(store.View(), bot, offset);
    if offset > 0 {
      var _ := store.DeleteMatching(Below(bot, offset));
    }
    var q := Query(bot, 0, allowed, 0, ClampLimit(limit, maximum));
    var left := if timeout <= 0 then [] else waits;
    LookedIsRight(store.View(), q, left);
    polled := LongPoll(store, q, left);
  }

  // The wait loop.
  method LongPoll(store: Store, q: Query, waits: seq<Wait>) returns (polled: Polled)
    modifies store
    ensures (store.View(), polled) == Looked(old(store.View()), q, waits)
  {
    var left := waits;
    ghost var goal := Looked(store.View(), q, left);
    while true
      invariant Looked(store.View(), q, left) == goal
      decreases |left|
    {
      var entries := store.PendingUpdates(q);
      if |entries| > 0 || left == [] {
        var updates := Updates(entries);
        return Batch(updates);
      }
      match left[0] {
        case Gone => return Cancelled;
        case Elapsed(t) =>
          store.Become(t);
          left := left[1..];
      }
    }
  }

  // --- webhook configuration ---

  datatype WebhookParams = WebhookParams(
    url: string, secretToken: string, allowed: seq<UpdateType>, maxConnections: int, dropPending: bool)

  function WebhookOf(bot: string, p: WebhookParams, now: Time): Webhook {
    Webhook(bot, p.url, p.secretToken, p.allowed, p.maxConnections, "", 0, 0, now, now)
  }

  method SetWebhook(store: Store, trim: string -> string, bot: string, p: WebhookParams, now: Time, commit: bool)
    returns (ok: bool)
    modifies store
    ensures var done := WebhookSet(trim, old(store.View()), bot, WebhookOf(bot, p, now), p.dropPending, now);
            && (ok <==> done.Ok? && commit)
            && store.View() == if ok then done.value else old(store.View())
  {
    if p.url == "" {
      return false;
    }
    var tx := store.Begin();
    if p.dropPending {
      var _ := tx.DeleteMatching(AllOf(bot));
    }
    ok := tx.SaveWebhook(trim, WebhookOf(bot, p, now), now);
    ok := ok && commit;
    store.End(tx, ok);
  }

  method DeleteWebhook(store: Store, bot: string, dropPending: bool, commit: bool)
    modifies store
    ensures store.View() == if commit then WebhookDeleted(old(store.View()), bot, dropPending) else old(store.View())
  {
    var tx := store.Begin();
    if dropPending {
      var _ := tx.DeleteMatching(AllOf(bot));
    }
    var _ := tx.DeleteWebhookRow(bot);
    store.End(tx, commit);
  }

  // --- webhook delivery ---

  datatype Answer = Success | Failure(error: string)

  datatype RetrySettings = RetrySettings(initial: Backoff.Duration, max: Backoff.Duration)

  // nextAttemptAt of the attempt after this one.
  function NextAttempt(settings: RetrySettings, e: QueueEntry, now: Time): Time {
    now + Backoff.DelayAfter(settings.initial, settings.max, e.attempts + 1)
  }

  function AfterAnswer(trim: string -> string, t: Tables, w: Webhook, e: QueueEntry, answer: Answer,
                       settings: RetrySettings, now: Time): Result<Tables>
  {
    match answer
    case Success => Delivered(trim, t, w, e, now)
    case Failure(error) => Failed(trim, t, w, e, error, NextAttempt(settings, e, now), now)
  }

  // The transaction after a 2xx answer.
  method RecordSuccess(store: Store, trim: string -> string, w: Webhook, e: QueueEntry, now: Time, commit: bool)
    returns (ok: bool)
    modifies store
    ensures var done := Delivered(trim, old(store.View()), w, e, now);
            && (ok <==> done.Ok? && commit)
            && store.View() == if ok then done.value else old(store.View())
  {
    var tx := store.Begin();
    var found := tx.DeleteMatching(Exactly(w.botAccountID, e.updateID));
    if !found {
      return false;
    }
    var row := w.(lastErrorMessage := "", lastErrorAt := 0, lastSuccessAt := now, updatedAt := now);
    ok := tx.SaveWebhook(trim, row, now);
    ok := ok && commit;
    store.End(tx, ok);
  }

  // The transaction after any other outcome.
  method RecordFailure(store: Store, trim: string -> string, w: Webhook, e: QueueEntry, error: string,
                       settings: RetrySettings, now: Time, commit: bool) returns (ok: bool)
    modifies store
    ensures var done := Failed(trim, old(store.View()), w, e, error, NextAttempt(settings, e, now), now);
            && (ok <==> done.Ok? && commit)
            && store.View() == if ok then done.value else old(store.View())
  {
    var delay := Backoff.Delay(settings.initial, settings.max, e.attempts + 1);
    ok := RecordRetry(store, trim, w, e, error, now + delay, now, commit);
  }

  method RecordRetry(store: Store, trim: string -> string, w: Webhook, e: QueueEntry, error: string, next: Time,
                     now: Time, commit: bool) returns (ok: bool)
    modifies store
    ensures var done := Failed(trim, old(store.View()), w, e, error, next, now);
            && (ok <==> done.Ok? && commit)
            && store.View() == if ok then done.value else old(store.View())
  {
    var tx := store.Begin();
    var found := tx.RetryUpdate(Retry(w.botAccountID, e.updateID, now, next, error));
    if !found {
      return false;
    }
    ok := tx.SaveWebhook(trim, w.(lastErrorMessage := error, lastErrorAt := now, updatedAt := now), now);
    ok := ok && commit;
    store.End(tx, ok);
  }

  // The rows after a failed attempt: the named one has one more attempt, the error, and a delay
  // that grows with the attempts made before; every other row is as it was.
  ghost predicate RowsRetried(before: seq<QueueEntry>, after: seq<QueueEntry>, w: Webhook, e: QueueEntry, error: string,
                              settings: RetrySettings, now: Time) {
    && |after| == |before|
    && forall i :: 0 <= i < |before| ==>
         if before[i].botAccountID == w.botAccountID && before[i].updateID == e.updateID
         then Backoff.IsDelay(settings.initial, settings.max, e.attempts, after[i].nextAttemptAt - now)
              && after[i] == before[i].(attempts := before[i].attempts + 1, nextAttemptAt := after[i].nextAttemptAt,
                                        lastError := error, updatedAt := now)
         else after[i] == before[i]
  }

  // The rows after a 2xx answer: the named one is gone, and no other.
  ghost predicate RowsDelivered(before: seq<QueueEntry>, after: seq<QueueEntry>, w: Webhook, e: QueueEntry) {
    forall r :: r in after <==> r in before && !(r.botAccountID == w.botAccountID && r.updateID == e.updateID)
  }

  // The delivery state of the webhook row.
  ghost predicate HookTells(hooks: map<string, Webhook>, bot: string, w: Webhook, answer: Answer, now: Time) {
    && bot in hooks
    && match answer
       case Success => hooks[bot].lastErrorMessage == "" && hooks[bot].lastErrorAt == 0 && hooks[bot].lastSuccessAt == now
       case Failure(error) =>
         hooks[bot].lastErrorMessage == error && hooks[bot].lastErrorAt == now && hooks[bot].lastSuccessAt == w.lastSuccessAt
  }

  ghost predicate Delivers(trim: string -> string, before: Tables, after: Tables, w: Webhook, e: QueueEntry, answer: Answer,
                           settings: RetrySettings, now: Time) {
    && HookTells(after.webhooks, trim(w.botAccountID), w, answer, now)
    && after.nextID == before.nextID && after.cursor == before.cursor
    && match answer
       case Success => RowsDelivered(before.rows, after.rows, w, e)
       case Failure(error) => RowsRetried(before.rows, after.rows, w, e, error, settings, now)
  }

  // A row is there to be delivered.
  ghost predicate RowThere(rows: seq<QueueEntry>, w: Webhook, e: QueueEntry) {
    exists i :: 0 <= i < |rows| && rows[i].botAccountID == w.botAccountID && rows[i].updateID == e.updateID
  }

  lemma {:induction false} RetriedRight(rows: seq<QueueEntry>, w: Webhook, e: QueueEntry, error: string,
                                        settings: RetrySettings, now: Time)
    ensures RowsRetried(rows, Retried(rows, Retry(w.botAccountID, e.updateID, now, NextAttempt(settings, e, now), error)),
                        w, e, error, settings, now)
  {
    RetriedReschedules(rows, Retry(w.botAccountID, e.updateID, now, NextAttempt(settings, e, now), error));
    Backoff.DelayIsPromised(settings.initial, settings.max, e.attempts);
  }

  // What a delivery leaves behind, whatever its answer.
  lemma {:induction false} AnswerDelivers(trim: string -> string, t: Tables, w: Webhook, e: QueueEntry, answer: Answer,
                                          settings: RetrySettings, now: Time)
    ensures AfterAnswer(trim, t, w, e, answer, settings, now).Ok? <==> RowThere(t.rows, w, e) && trim(w.botAccountID) != ""
    ensures AfterAnswer(trim, t, w, e, answer, settings, now).Ok? ==>
              Delivers(trim, t, AfterAnswer(trim, t, w, e, answer, settings, now).value, w, e, answer, settings, now)
  {
    var row := Exactly(w.botAccountID, e.updateID);
    if RowThere(t.rows, w, e) {
      var i :| 0 <= i < |t.rows| && t.rows[i].botAccountID == w.botAccountID && t.rows[i].updateID == e.updateID;
      assert Matches(row, t.rows[i]);
    }
    match answer {
      case Success =>
        forall r
          ensures r in Without(t.rows, row) <==> r in t.rows && !(r.botAccountID == w.botAccountID && r.updateID == e.updateID)
        {
          WithoutHas(t.rows, row, r);
        }
      case Failure(error) => RetriedRight(t.rows, w, e, error, settings, now);
    }
  }

  // deliverWebhook after the request; w and e are as read at the start of the round.
  method FinishDelivery(store: Store, trim: string -> string, w: Webhook, e: QueueEntry, answer: Answer,
                        settings: RetrySettings, now: Time, commit: bool) returns (ok: bool)
    modifies store
    ensures var done := AfterAnswer(trim, old(store.View()), w, e, answer, settings, now);
            && (ok <==> done.Ok? && commit)
            && store.View() == if ok then done.value else old(store.View())
    ensures ok <==> RowThere(old(store.rows), w, e) && trim(w.botAccountID) != "" && commit
    ensures ok ==> Delivers(trim, old(store.View()), store.View(), w, e, answer, settings, now)
  {
    AnswerDelivers(trim, store.View(), w, e, answer, settings, now);
    match answer {
      case Success => ok := RecordSuccess(store, trim, w, e, now, commit);
      case Failure(error) => ok := RecordFailure(store, trim, w, e, error, settings, now, commit);
    }
  }

  // --- fan-out ---

  // What one turn of a round meets: the world, the clock, and whether its commit succeeds.
  datatype Turn = Turn(w: World, now: Time, commit: bool)

  function Above(log: seq<Event>, cursor: nat): seq<Event> {
    if log == [] then [] else
    var front, last := Above(log[..|log| - 1], cursor), log[|log| - 1];
    if last.sequence > cursor then front + [last] else front
  }

  // The events of a round; without a positive batch size there is no limit.
  function Loaded(log: seq<Event>, cursor: nat, batch: int): seq<Event> {
    var events := Above(log, cursor);
    if batch > 0 && |events| > batch then events[..batch] else events
  }

  // The tables after the first n events of a round have committed.
  function AfterTurns(t: Tables, events: seq<Event>, turns: seq<Turn>, n: nat): Result<Tables>
    requires n <= |events| && n <= |turns|
  {
    if n == 0 then Ok(t) else
    match AfterTurns(t, events, turns, n - 1)
    case Err => Err
    case Ok(front) => FannedOut(front, turns[n - 1].w, events[n - 1], turns[n - 1].now)
  }

  method SaveBatch(tx: Store, trim: string -> string, entries: seq<QueueEntry>, now: Time) returns (ok: bool)
    modifies tx
    ensures ok <==> SaveUpdates(trim, old(tx.View()), entries, now).Ok?
    ensures ok ==> tx.View() == SaveUpdates(trim, old(tx.View()), entries, now).value
  {
    ghost var t := tx.View();
    for i := 0 to |entries|
      invariant SaveUpdates(trim, t, entries[..i], now) == Ok(tx.View())
    {
      assert entries[..i + 1][..i] == entries[..i];
      var saved := tx.SaveUpdate(trim, entries[i], now);
      if !saved {
        FailedSaveFails(trim, t, entries, i, now);
        return false;
      }
    }
    assert entries[..|entries|] == entries;
    return true;
  }

  lemma {:induction false} FailedSaveFails(trim: string -> string, t: Tables, entries: seq<QueueEntry>, i: nat, now: Time)
    requires i < |entries| && SaveUpdates(trim, t, entries[..i + 1], now).Err?
    ensures SaveUpdates(trim, t, entries, now).Err?
    decreases |entries|
  {
    if i < |entries| - 1 {
      var front := entries[..|entries| - 1];
      assert front[..i + 1] == entries[..i + 1];
      FailedSaveFails(trim, t, front, i, now);
    } else {
      assert entries[..i + 1] == entries;
    }
  }

  // One event in its own transaction.
  method ProcessEvent(store: Store, event: Event, turn: Turn) returns (ok: bool)
    modifies store
    ensures var done := FannedOut(old(store.View()), turn.w, event, turn.now);
            && (ok <==> done.Ok? && turn.commit)
            && (ok ==> store.View() == done.value)
            && (!ok ==> store.View() == old(store.View()).(nextID := store.nextID))
  {
    var tx := store.Begin();
    var built := BuildUpdatesForEvent(turn.w, event, turn.now);
    if built.Err? {
      return false;
    }
    ok := SaveBatch(tx, turn.w.trim, built.value, turn.now);
    if ok {
      tx.SaveCursor(event.sequence);
      ok := turn.commit;
    }
    store.End(tx, ok);
  }

  // processFanout: the first n events commit one by one; the first failure ends the round
  // with nothing of its event saved.
  method ProcessFanout(store: Store, log: seq<Event>, batch: int, turns: seq<Turn>) returns (n: nat, ok: bool)
    requires |turns| >= |Loaded(log, store.cursor, batch)|
    modifies store
    ensures var events := Loaded(log, old(store.cursor), batch);
            && n <= |events|
            && AfterTurns(old(store.View()), events, turns, n).Ok?
            && store.View() == AfterTurns(old(store.View()), events, turns, n).value.(nextID := store.nextID)
            && (ok <==> n == |events|)
            && (!ok ==> !turns[n].commit
                        || FannedOut(AfterTurns(old(store.View()), events, turns, n).value, turns[n].w, events[n], turns[n].now).Err?)
  {
    var events := Loaded(log, store.cursor, batch);
    ghost var t := store.View();
    n := 0;
    while n < |events|
      invariant n <= |events|
      invariant AfterTurns(t, events, turns, n) == Ok(store.View())
    {
      var committed := ProcessEvent(store, events[n], turns[n]);
      if !committed {
        return n, false;
      }
      n := n + 1;
    }
    return n, true;
  }
}
