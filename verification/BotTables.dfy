// The bot tables and the service calls that work on them: the update queue, the webhook
// rows and the fan-out cursor.
module BotTables {
  import opened Outcomes
  import opened BotUpdates

  datatype Webhook = Webhook(
    botAccountID: string, url: string, secretToken: string, allowed: seq<UpdateType>, maxConnections: int,
    lastErrorMessage: string, lastErrorAt: Time, lastSuccessAt: Time, createdAt: Time, updatedAt: Time)

  // Rows stand in update-ID order; nextID is the sequence behind the IDs.
  datatype Tables = Tables(rows: seq<QueueEntry>, nextID: nat, webhooks: map<string, Webhook>, cursor: nat)

  const EMPTY := Tables([], 1, map[], 0)

  ghost predicate Valid(t: Tables) {
    && t.nextID >= 1
    && (forall i :: 0 <= i < |t.rows| ==> 1 <= t.rows[i].updateID < t.nextID)
    && (forall i, j :: 0 <= i < j < |t.rows| ==> t.rows[i].updateID < t.rows[j].updateID)
  }

  // --- selecting rows ---

  datatype Selector = Below(bot: string, offset: int) | Exactly(bot: string, updateID: int) | AllOf(bot: string)

  predicate Hits(sel: Selector, bot: string, updateID: nat) {
    sel.bot == bot && (sel.Below? ==> updateID < sel.offset) && (sel.Exactly? ==> updateID == sel.updateID)
  }

  predicate Matches(sel: Selector, e: QueueEntry) {
    Hits(sel, e.botAccountID, e.updateID)
  }

  function Without(rows: seq<QueueEntry>, sel: Selector): seq<QueueEntry> {
    if rows == [] then [] else
    var front, last := Without(rows[..|rows| - 1], sel), rows[|rows| - 1];
    if Matches(sel, last) then front else front + [last]
  }

  predicate Holds(rows: seq<QueueEntry>, sel: Selector) {
    exists i :: 0 <= i < |rows| && Matches(sel, rows[i])
  }

  // The arguments of PendingUpdates; before == 0 stands for the zero time, no filter.
  datatype Query = Query(bot: string, offset: int, allowed: seq<UpdateType>, before: Time, limit: int)

  // An empty filter, or one of unspecified types only, lets every type through.
  predicate Allows(allowed: seq<UpdateType>, t: UpdateType) {
    (forall i :: 0 <= i < |allowed| ==> allowed[i] == Unspecified) || (t != Unspecified && t in allowed)
  }

  predicate Wanted(q: Query, e: QueueEntry) {
    && e.botAccountID == q.bot
    && e.updateID >= q.offset
    && Allows(q.allowed, e.updateType)
    && (q.before == 0 || e.nextAttemptAt <= q.before)
  }

  function Selected(rows: seq<QueueEntry>, q: Query): seq<QueueEntry> {
    if rows == [] then [] else
    var front, last := Selected(rows[..|rows| - 1], q), rows[|rows| - 1];
    if Wanted(q, last) then front + [last] else front
  }

  function Pending(rows: seq<QueueEntry>, q: Query): seq<QueueEntry> {
    var all := Selected(rows, q);
    if q.limit <= 0 then [] else if |all| <= q.limit then all else all[..q.limit]
  }

  // --- writing rows ---

  predicate SameKey(a: QueueEntry, b: QueueEntry) {
    a.botAccountID == b.botAccountID && a.eventID == b.eventID && a.updateType == b.updateType
  }

  predicate KeyTaken(rows: seq<QueueEntry>, e: QueueEntry) {
    exists i :: 0 <= i < |rows| && SameKey(rows[i], e)
  }

  // saveUpdate after normalisation: a row with the same key wins, and the ID drawn for the
  // losing row is spent.
  function Insert(t: Tables, e: QueueEntry): Tables {
    t.(rows := if KeyTaken(t.rows, e) then t.rows else t.rows + [e.(updateID := t.nextID)], nextID := t.nextID + 1)
  }

  function SaveUpdate(trim: string -> string, t: Tables, e: QueueEntry, now: Time): Result<Tables> {
    match NormalizeEntry(trim, e, now)
    case Err => Err
    case Ok(n) => Ok(Insert(t, n))
  }

  function SaveUpdates(trim: string -> string, t: Tables, entries: seq<QueueEntry>, now: Time): Result<Tables> {
    if entries == [] then Ok(t) else
    match SaveUpdates(trim, t, entries[..|entries| - 1], now)
    case Err => Err
    case Ok(front) => SaveUpdate(trim, front, entries[|entries| - 1], now)
  }

  function Delete(t: Tables, sel: Selector): Tables {
    t.(rows := Without(t.rows, sel))
  }

  // deliverWebhook's bookkeeping after a failed attempt.
  datatype Retry = Retry(bot: string, updateID: int, attemptedAt: Time, nextAttemptAt: Time, lastError: string)

  function Rescheduled(e: QueueEntry, p: Retry): QueueEntry {
    e.(attempts := e.attempts + 1, nextAttemptAt := p.nextAttemptAt, lastError := p.lastError, updatedAt := p.attemptedAt)
  }

  function Retried(rows: seq<QueueEntry>, p: Retry): seq<QueueEntry> {
    if rows == [] then [] else
    var front, last := Retried(rows[..|rows| - 1], p), rows[|rows| - 1];
    front + [if Matches(Exactly(p.bot, p.updateID), last)
             then Rescheduled(last, p) else last]
  }

  // --- webhooks and cursor ---

  function UniqueTypes(types: seq<UpdateType>): seq<UpdateType> {
    if types == [] then [] else
    var front, last := UniqueTypes(types[..|types| - 1]), types[|types| - 1];
    if last == Unspecified || last in front then front else front + [last]
  }

  const DEFAULT_MAX_CONNECTIONS := 40

  function NormalizeWebhook(trim: string -> string, w: Webhook, now: Time): Result<Webhook> {
    var bot := trim(w.botAccountID);
    if bot == "" then Err else
    var createdAt := if w.createdAt == 0 then now else w.createdAt;
    Ok(w.(
      botAccountID := bot, url := trim(w.url), secretToken := trim(w.secretToken), allowed := UniqueTypes(w.allowed),
      maxConnections := if w.maxConnections <= 0 then DEFAULT_MAX_CONNECTIONS else w.maxConnections,
      createdAt := createdAt, updatedAt := if w.updatedAt == 0 then createdAt else w.updatedAt))
  }

  // An upsert; the creation time of an existing row stays.
  function SaveWebhook(trim: string -> string, t: Tables, w: Webhook, now: Time): Result<Tables> {
    match NormalizeWebhook(trim, w, now)
    case Err => Err
    case Ok(n) =>
      var row := if n.botAccountID in t.webhooks then n.(createdAt := t.webhooks[n.botAccountID].createdAt) else n;
      Ok(t.(webhooks := t.webhooks[n.botAccountID := row]))
  }

  function SaveCursor(t: Tables, sequence: nat): Tables {
    t.(cursor := if sequence > t.cursor then sequence else t.cursor)
  }

  // --- what the service calls do, each transaction as a whole ---

  function DropPending(t: Tables, bot: string, drop: bool): Tables {
    if drop then Delete(t, AllOf(bot)) else t
  }

  predicate Hooked(t: Tables, bot: string) {
    bot in t.webhooks && t.webhooks[bot].url != ""
  }

  function Acknowledge(t: Tables, bot: string, offset: int): Tables {
    if offset > 0 then Delete(t, Below(bot, offset)) else t
  }

  function WebhookSet(trim: string -> string, t: Tables, bot: string, w: Webhook, drop: bool, now: Time): Result<Tables> {
    if w.url == "" then Err else SaveWebhook(trim, DropPending(t, bot, drop), w, now)
  }

  function WebhookDeleted(t: Tables, bot: string, drop: bool): Tables {
    var d := DropPending(t, bot, drop);
    d.(webhooks := d.webhooks - {bot})
  }

  // A 2xx answer: the row goes, and the webhook as it was read is written back.
  function Delivered(trim: string -> string, t: Tables, w: Webhook, e: QueueEntry, now: Time): Result<Tables> {
    var row := Exactly(w.botAccountID, e.updateID);
    if !Holds(t.rows, row) then Err else
    SaveWebhook(trim, Delete(t, row),
                w.(lastErrorMessage := "", lastErrorAt := 0, lastSuccessAt := now, updatedAt := now), now)
  }

  // Any other outcome: the row is retried later, and the webhook as it was read is written back.
  function Failed(trim: string -> string, t: Tables, w: Webhook, e: QueueEntry, error: string, next: Time, now: Time)
    : Result<Tables>
  {
    var row := Exactly(w.botAccountID, e.updateID);
    if !Holds(t.rows, row) then Err else
    SaveWebhook(trim, t.(rows := Retried(t.rows, Retry(w.botAccountID, e.updateID, now, next, error))),
                w.(lastErrorMessage := error, lastErrorAt := now, updatedAt := now), now)
  }

  // One event of a fan-out round.
  function FannedOut(t: Tables, w: World, event: Event, now: Time): Result<Tables> {
    match Build(w, event, now)
    case Err => Err
    case Ok(entries) =>
      match SaveUpdates(w.trim, t, entries, now)
      case Err => Err
      case Ok(saved) => Ok(SaveCursor(saved, event.sequence))
  }

  // --- elementary facts ---

  lemma {:induction false} WithoutKeeps(rows: seq<QueueEntry>, sel: Selector, i: nat)
    requires i < |Without(rows, sel)|
    ensures !Matches(sel, Without(rows, sel)[i])
    decreases |rows|
  {
    var front := Without(rows[..|rows| - 1], sel);
    if i < |front| {
      WithoutKeeps(rows[..|rows| - 1], sel, i);
    }
  }

  lemma {:induction false} WithoutHas(rows: seq<QueueEntry>, sel: Selector, r: QueueEntry)
    ensures r in Without(rows, sel) <==> r in rows && !Matches(sel, r)
    decreases |rows|
  {
    if rows != [] {
      assert rows == rows[..|rows| - 1] + [rows[|rows| - 1]];
      WithoutHas(rows[..|rows| - 1], sel, r);
    }
  }

  // Where a surviving row was.
  lemma {:induction false} WithoutOrigin(rows: seq<QueueEntry>, sel: Selector, i: nat, j: nat) returns (k: nat, l: nat)
    requires i < j < |Without(rows, sel)|
    ensures k < l < |rows| && Without(rows, sel)[i] == rows[k] && Without(rows, sel)[j] == rows[l]
    decreases |rows|
  {
    var n := |rows| - 1;
    var front := Without(rows[..n], sel);
    if j < |front| {
      k, l := WithoutOrigin(rows[..n], sel, i, j);
    } else {
      k := WithoutOne(rows[..n], sel, i);
      l := n;
    }
  }

  lemma {:induction false} WithoutOne(rows: seq<QueueEntry>, sel: Selector, i: nat) returns (k: nat)
    requires i < |Without(rows, sel)|
    ensures k < |rows| && Without(rows, sel)[i] == rows[k]
    decreases |rows|
  {
    var n := |rows| - 1;
    if i < |Without(rows[..n], sel)| {
      k := WithoutOne(rows[..n], sel, i);
    } else {
      k := n;
    }
  }

  lemma DeleteValid(t: Tables, sel: Selector)
    requires Valid(t)
    ensures Valid(Delete(t, sel))
  {
    var rows := Without(t.rows, sel);
    forall i | 0 <= i < |rows|
      ensures 1 <= rows[i].updateID < t.nextID
    {
      var k := WithoutOne(t.rows, sel, i);
    }
    forall i, j | 0 <= i < j < |rows|
      ensures rows[i].updateID < rows[j].updateID
    {
      var k, l := WithoutOrigin(t.rows, sel, i, j);
    }
  }

  lemma InsertValid(t: Tables, e: QueueEntry)
    requires Valid(t)
    ensures Valid(Insert(t, e))
  {
  }

  // A retry touches the attempts, the schedule and the error of its row, and no other row.
  lemma {:induction false} RetriedAt(rows: seq<QueueEntry>, p: Retry, i: nat)
    requires i < |rows|
    ensures |Retried(rows, p)| == |rows|
    ensures var r := Retried(rows, p)[i];
            if rows[i].botAccountID == p.bot && rows[i].updateID == p.updateID
            then r.attempts == rows[i].attempts + 1 && r.nextAttemptAt == p.nextAttemptAt && r.lastError == p.lastError
                 && r.updatedAt == p.attemptedAt
                 && r == rows[i].(attempts := r.attempts, nextAttemptAt := r.nextAttemptAt, lastError := r.lastError,
                                  updatedAt := r.updatedAt)
            else r == rows[i]
    decreases |rows|
  {
    var n := |rows| - 1;
    if i < n {
      RetriedAt(rows[..n], p, i);
    } else if n > 0 {
      RetriedAt(rows[..n], p, 0);
    }
  }

  lemma RetriedValid(t: Tables, p: Retry)
    requires Valid(t)
    ensures Valid(t.(rows := Retried(t.rows, p)))
  {
    if t.rows != [] {
      RetriedAt(t.rows, p, 0);
    }
    forall i | 0 <= i < |t.rows|
      ensures Retried(t.rows, p)[i].updateID == t.rows[i].updateID
    {
      RetriedAt(t.rows, p, i);
    }
  }

  lemma {:induction false} SaveUpdatesValid(trim: string -> string, t: Tables, entries: seq<QueueEntry>, now: Time)
    requires Valid(t) && SaveUpdates(trim, t, entries, now).Ok?
    ensures Valid(SaveUpdates(trim, t, entries, now).value)
    decreases |entries|
  {
    if entries != [] {
      var front := entries[..|entries| - 1];
      SaveUpdatesValid(trim, t, front, now);
      InsertValid(SaveUpdates(trim, t, front, now).value, NormalizeEntry(trim, entries[|entries| - 1], now).value);
    }
  }

  // --- reading rows ---

  lemma {:induction false} SelectedHas(rows: seq<QueueEntry>, q: Query, e: QueueEntry)
    ensures e in Selected(rows, q) <==> e in rows && Wanted(q, e)
    decreases |rows|
  {
    if rows != [] {
      var front, last := rows[..|rows| - 1], rows[|rows| - 1];
      SelectedHas(front, q, e);
      assert rows == front + [last];
    }
  }

  lemma {:induction false} SelectedAscends(t: Tables, n: nat, q: Query)
    requires Valid(t) && n <= |t.rows|
    ensures var r := Selected(t.rows[..n], q);
            && (forall i, j :: 0 <= i < j < |r| ==> r[i].updateID < r[j].updateID)
            && (r != [] && n < |t.rows| ==> r[|r| - 1].updateID < t.rows[n].updateID)
    decreases n
  {
    if n > 0 {
      assert t.rows[..n][..n - 1] == t.rows[..n - 1];
      SelectedAscends(t, n - 1, q);
    }
  }

  // A read returns wanted rows, in ID order, at most the limit, and passes over no older
  // wanted row; without a positive limit it returns nothing.
  lemma PendingExact(t: Tables, q: Query, e: QueueEntry)
    requires Valid(t)
    ensures var r := Pending(t.rows, q);
            && |r| <= (if q.limit <= 0 then 0 else q.limit)
            && (forall i, j :: 0 <= i < j < |r| ==> r[i].updateID < r[j].updateID)
            && (e in r ==> e in t.rows && Wanted(q, e))
            && (e in t.rows && Wanted(q, e) && e !in r ==>
                  q.limit <= 0 || (|r| == q.limit && forall i :: 0 <= i < |r| ==> r[i].updateID < e.updateID))
  {
    assert t.rows[..|t.rows|] == t.rows;
    SelectedAscends(t, |t.rows|, q);
    SelectedHas(t.rows, q, e);
    var all := Selected(t.rows, q);
    if q.limit > 0 && |all| > q.limit && e in all && e !in all[..q.limit] {
      assert all == all[..q.limit] + all[q.limit..];
      var k :| 0 <= k < |all[q.limit..]| && all[q.limit..][k] == e;
    }
  }

  // The same in the fields of query and rows alone.

  // The filter names a type.
  ghost predicate Filters(allowed: seq<UpdateType>) {
    exists i :: 0 <= i < |allowed| && allowed[i] != Unspecified
  }

  // The row is one the query asks for.
  ghost predicate AskedFor(q: Query, e: QueueEntry) {
    && e.botAccountID == q.bot
    && e.updateID >= q.offset
    && (Filters(q.allowed) ==> e.updateType in q.allowed)
    && (q.before != 0 ==> e.nextAttemptAt <= q.before)
  }

  // These rows are the first ones asked for, in ID order, as many as the limit allows.
  ghost predicate FirstAskedFor(rows: seq<QueueEntry>, q: Query, shown: seq<QueueEntry>) {
    && |shown| <= (if q.limit <= 0 then 0 else q.limit)
    && (forall i, j :: 0 <= i < j < |shown| ==> shown[i].updateID < shown[j].updateID)
    && (forall i :: 0 <= i < |shown| ==> shown[i] in rows && AskedFor(q, shown[i]))
    && (forall e :: e in rows && AskedFor(q, e) && e !in shown ==>
          q.limit <= 0 || (|shown| == q.limit && forall i :: 0 <= i < |shown| ==> shown[i].updateID < e.updateID))
  }

  // Stored rows have a type.
  ghost predicate Typed(rows: seq<QueueEntry>) {
    forall e :: e in rows ==> e.updateType != Unspecified
  }

  lemma {:induction false} WantedIff(q: Query, e: QueueEntry)
    requires e.updateType != Unspecified
    ensures Wanted(q, e) <==> AskedFor(q, e)
  {
    if Filters(q.allowed) {
      var i :| 0 <= i < |q.allowed| && q.allowed[i] != Unspecified;
    }
  }

  // PendingUpdates reads the first rows asked for.
  lemma {:induction false} PendingIsFirst(t: Tables, q: Query)
    requires Valid(t) && Typed(t.rows)
    ensures FirstAskedFor(t.rows, q, Pending(t.rows, q))
  {
    var shown := Pending(t.rows, q);
    forall e | e in t.rows
      ensures Wanted(q, e) <==> AskedFor(q, e)
    {
      WantedIff(q, e);
    }
    forall e
      ensures e in shown ==> e in t.rows && Wanted(q, e)
      ensures e in t.rows && Wanted(q, e) && e !in shown ==>
                q.limit <= 0 || (|shown| == q.limit && forall i :: 0 <= i < |shown| ==> shown[i].updateID < e.updateID)
    {
      PendingExact(t, q, e);
    }
    if shown != [] {
      PendingExact(t, q, shown[0]);
    }
  }

  // The rows of the bot below the offset are gone, and no others.
  ghost predicate OnlyBelowGone(before: seq<QueueEntry>, after: seq<QueueEntry>, bot: string, offset: int) {
    forall e :: e in after <==> e in before && !(e.botAccountID == bot && e.updateID < offset)
  }

  lemma {:induction false} AcknowledgeIsExact(t: Tables, bot: string, offset: int)
    ensures OnlyBelowGone(t.rows, Acknowledge(t, bot, offset).rows, bot, offset)
  {
    forall e
      ensures e in Acknowledge(t, bot, offset).rows <==> e in t.rows && !(e.botAccountID == bot && e.updateID < offset)
    {
      WithoutHas(t.rows, Below(bot, offset), e);
    }
  }

  // --- keys ---

  ghost predicate UniqueKeys(rows: seq<QueueEntry>) {
    forall i, j :: 0 <= i < j < |rows| ==>
      rows[i].botAccountID != rows[j].botAccountID || rows[i].eventID != rows[j].eventID
      || rows[i].updateType != rows[j].updateType
  }

  // No two rows ever share bot, event and type: an entry that would repeat a row changes nothing
  // but the next ID, any other becomes the last row, untouched but for its ID.
  lemma {:induction false} InsertIsExact(t: Tables, e: QueueEntry)
    requires UniqueKeys(t.rows)
    ensures var r := Insert(t, e);
            && UniqueKeys(r.rows) && r.nextID == t.nextID + 1 && r.webhooks == t.webhooks && r.cursor == t.cursor
            && r.rows == if exists i :: 0 <= i < |t.rows| && t.rows[i].botAccountID == e.botAccountID
                              && t.rows[i].eventID == e.eventID && t.rows[i].updateType == e.updateType
                         then t.rows else t.rows + [e.(updateID := t.nextID)]
  {
    if i :| 0 <= i < |t.rows| && t.rows[i].botAccountID == e.botAccountID
            && t.rows[i].eventID == e.eventID && t.rows[i].updateType == e.updateType {
      assert SameKey(t.rows[i], e);
    }
  }

  // --- webhook configuration ---

  // A stored webhook blocks polling exactly when its trimmed URL is not blank, and touches no
  // other bot; rows go only when asked for, and then all of the bot's.
  lemma WebhookSetEffect(trim: string -> string, t: Tables, w: Webhook, drop: bool, now: Time, other: string, i: nat)
    requires trim(w.botAccountID) == w.botAccountID && other != w.botAccountID
    requires WebhookSet(trim, t, w.botAccountID, w, drop, now).Ok?
    ensures var r := WebhookSet(trim, t, w.botAccountID, w, drop, now).value;
            && (Hooked(r, w.botAccountID) <==> trim(w.url) != "")
            && (Hooked(r, other) <==> Hooked(t, other))
            && (!drop ==> r.rows == t.rows)
            && (drop && i < |r.rows| ==> r.rows[i].botAccountID != w.botAccountID)
  {
    if drop && i < |Without(t.rows, AllOf(w.botAccountID))| {
      WithoutKeeps(t.rows, AllOf(w.botAccountID), i);
    }
  }
}
