// Runs of the bot update pipeline: the event log, one fan-out worker, pollers, webhook
// deliveries and webhook configuration, interleaved step by step, with transactions that
// may abort and a worker that may stop anywhere.
module BotPipeline {
  import opened BotUpdates
  import opened BotTables
  import opened BotService

  // What of a queue entry never changes once it is saved.
  datatype Core = Core(bot: string, eventID: string, updateType: UpdateType, payload: Update, createdAt: Time)
  datatype Item = Item(updateID: nat, core: Core)

  function CoreOf(e: QueueEntry): Core {
    Core(e.botAccountID, e.eventID, e.updateType, e.payload, e.createdAt)
  }

  function Cores(entries: seq<QueueEntry>): seq<Core> {
    if entries == [] then [] else Cores(entries[..|entries| - 1]) + [CoreOf(entries[|entries| - 1])]
  }

  function Items(rows: seq<QueueEntry>): seq<Item> {
    if rows == [] then [] else
    Items(rows[..|rows| - 1]) + [Item(rows[|rows| - 1].updateID, CoreOf(rows[|rows| - 1]))]
  }

  // --- history: every row ever saved, and what became of it ---

  datatype Fate = Waiting | Acked(offset: int) | Answered | Dropped
  datatype Record = Record(item: Item, fate: Fate)

  predicate RecordHit(sel: Selector, r: Record) {
    r.fate.Waiting? && Hits(sel, r.item.core.bot, r.item.updateID)
  }

  // A deletion settles the fate of the waiting rows it matches.
  function Retire(history: seq<Record>, sel: Selector, fate: Fate): seq<Record> {
    if history == [] then [] else
    var front, last := Retire(history[..|history| - 1], sel, fate), history[|history| - 1];
    front + [if RecordHit(sel, last) then last.(fate := fate) else last]
  }

  function Live(history: seq<Record>): seq<Item> {
    if history == [] then [] else
    var front, last := Live(history[..|history| - 1]), history[|history| - 1];
    if last.fate.Waiting? then front + [last.item] else front
  }

  function Born(rows: seq<QueueEntry>): seq<Record> {
    if rows == [] then [] else
    Born(rows[..|rows| - 1]) + [Record(Item(rows[|rows| - 1].updateID, CoreOf(rows[|rows| - 1])), Waiting)]
  }

  // --- states and steps ---

  // round: what the worker has loaded and not yet processed. batches and turns: what it built
  // for the events whose transactions committed, and the world and clock it built that from.
  // hooks: the webhook rows its delivery round has read.
  datatype State = State(
    log: seq<Event>, tables: Tables, round: seq<Event>, history: seq<Record>, batches: seq<seq<QueueEntry>>,
    turns: seq<Turn>, hooks: map<string, Webhook>)

  const INITIAL := State([], EMPTY, [], [], [], [], map[])

  datatype Action =
    | Append(event: Event)
    | Load(batch: int)
    | Process(w: World, now: Time, commit: bool, burnt: nat)
    | Stop
    | Fire(trim: string -> string, trigger: Trigger, now: Time, commit: bool, burnt: nat)
    | Ack(bot: string, offset: int)
    | ReadHooks
    | Deliver(trim: string -> string, hook: Webhook, e: QueueEntry, answer: Answer, settings: RetrySettings, now: Time, commit: bool)
    | SetHook(trim: string -> string, bot: string, params: WebhookParams, now: Time, commit: bool)
    | DeleteHook(bot: string, drop: bool, commit: bool)

  // The log grows by events with larger sequences and fresh IDs; the worker sees usable worlds,
  // and delivers with webhook rows its round has read, for any entry it may have read.
  ghost predicate Enabled(s: State, a: Action) {
    match a
    case Append(event) =>
      && GoodEvent(event) && event.sequence >= 1
      && forall i :: 0 <= i < |s.log| ==> s.log[i].sequence < event.sequence && s.log[i].eventID != event.eventID
    case Load(_) => s.round == []
    case Process(w, now, _, _) => s.round != [] && UsableWorld(w) && now > 0
    case Deliver(_, hook, _, _, _, _, _) => hook.botAccountID in s.hooks && s.hooks[hook.botAccountID] == hook
    case _ => true
  }

  // Steps that only touch the queue and the webhooks.
  predicate Outside(a: Action) {
    a.Ack? || a.Deliver? || a.SetHook? || a.DeleteHook?
  }

  // A rolled-back transaction leaves nothing but spent IDs.
  function Burn(s: State, burnt: nat): State {
    s.(tables := s.tables.(nextID := s.tables.nextID + burnt))
  }

  // Rows saved since are new history.
  function Saved(s: State, t: Tables): State
    requires |t.rows| >= |s.tables.rows|
  {
    s.(tables := t, history := s.history + Born(t.rows[|s.tables.rows|..]))
  }

  function Deleted(s: State, sel: Selector, fate: Fate): State {
    s.(tables := Delete(s.tables, sel), history := Retire(s.history, sel, fate))
  }

  // The next event of the round, its entries saved and the cursor moved.
  function Committed(s: State, t: Tables, entries: seq<QueueEntry>, turn: Turn): State
    requires s.round != [] && |t.rows| >= |s.tables.rows|
  {
    Saved(s, t).(round := s.round[1..], batches := s.batches + [entries], turns := s.turns + [turn])
  }

  function StepProcess(s: State, w: World, now: Time, commit: bool, burnt: nat): State
    requires s.round != []
  {
    var done := FannedOut(s.tables, w, s.round[0], now);
    if done.Ok? && commit then
      GrowsOnFanOut(s.tables, w, s.round[0], now);
      Committed(s, done.value, Build(w, s.round[0], now).value, Turn(w, now, true))
    else Burn(s, burnt).(round := [])
  }

  function StepFire(s: State, trim: string -> string, trigger: Trigger, now: Time, commit: bool, burnt: nat): State {
    var done := SaveUpdate(trim, s.tables, TriggerEntry(trigger, now), now);
    if done.Ok? && commit then Saved(s, done.value) else Burn(s, burnt)
  }

  function StepDeliver(s: State, trim: string -> string, hook: Webhook, e: QueueEntry, answer: Answer, settings: RetrySettings,
                       now: Time, commit: bool): State {
    var done := AfterAnswer(trim, s.tables, hook, e, answer, settings, now);
    if done.Err? || !commit then s
    else
      var history := if answer.Success? then Retire(s.history, Exactly(hook.botAccountID, e.updateID), Answered) else s.history;
      s.(tables := done.value, history := history)
  }

  function StepSetHook(s: State, trim: string -> string, bot: string, p: WebhookParams, now: Time, commit: bool): State {
    var done := WebhookSet(trim, s.tables, bot, WebhookOf(bot, p, now), p.dropPending, now);
    if done.Err? || !commit then s
    else s.(tables := done.value, history := if p.dropPending then Retire(s.history, AllOf(bot), Dropped) else s.history)
  }

  function StepDeleteHook(s: State, bot: string, drop: bool, commit: bool): State {
    if !commit then s
    else s.(tables := WebhookDeleted(s.tables, bot, drop), history := if drop then Retire(s.history, AllOf(bot), Dropped) else s.history)
  }

  function Step(s: State, a: Action): State
    requires Enabled(s, a)
  {
    match a
    case Append(event) => s.(log := s.log + [event])
    case Load(batch) => s.(round := Loaded(s.log, s.tables.cursor, batch))
    case Process(w, now, commit, burnt) => StepProcess(s, w, now, commit, burnt)
    case Stop => s.(round := [], hooks := map[])
    case ReadHooks => s.(hooks := s.tables.webhooks)
    case Fire(trim, trigger, now, commit, burnt) => StepFire(s, trim, trigger, now, commit, burnt)
    case Ack(bot, offset) => if offset > 0 then Deleted(s, Below(bot, offset), Acked(offset)) else s
    case Deliver(trim, hook, e, answer, settings, now, commit) => StepDeliver(s, trim, hook, e, answer, settings, now, commit)
    case SetHook(trim, bot, p, now, commit) => StepSetHook(s, trim, bot, p, now, commit)
    case DeleteHook(bot, drop, commit) => StepDeleteHook(s, bot, drop, commit)
  }

  // --- saving only appends ---

  lemma {:induction false} SavesGrow(trim: string -> string, t: Tables, entries: seq<QueueEntry>, now: Time)
    requires SaveUpdates(trim, t, entries, now).Ok?
    ensures t.rows <= SaveUpdates(trim, t, entries, now).value.rows
    decreases |entries|
  {
    if entries != [] {
      SavesGrow(trim, t, entries[..|entries| - 1], now);
    }
  }

  lemma GrowsOnFanOut(t: Tables, w: World, event: Event, now: Time)
    requires FannedOut(t, w, event, now).Ok?
    ensures t.rows <= FannedOut(t, w, event, now).value.rows
  {
    SavesGrow(w.trim, t, Build(w, event, now).value, now);
  }

  // --- conservation: rows and history agree ---

  function ItemsWithout(items: seq<Item>, sel: Selector): seq<Item> {
    if items == [] then [] else
    var front, last := ItemsWithout(items[..|items| - 1], sel), items[|items| - 1];
    if Hits(sel, last.core.bot, last.updateID) then front else front + [last]
  }

  lemma {:induction false} DeleteItems(rows: seq<QueueEntry>, sel: Selector)
    ensures Items(Without(rows, sel)) == ItemsWithout(Items(rows), sel)
    decreases |rows|
  {
    if rows != [] {
      var front, last := rows[..|rows| - 1], rows[|rows| - 1];
      DeleteItems(front, sel);
      assert Items(rows)[..|Items(rows)| - 1] == Items(front);
      assert (Without(front, sel) + [last])[..|Without(front, sel)|] == Without(front, sel);
    }
  }

  lemma {:induction false} RetireLive(history: seq<Record>, sel: Selector, fate: Fate)
    requires !fate.Waiting?
    ensures Live(Retire(history, sel, fate)) == ItemsWithout(Live(history), sel)
    decreases |history|
  {
    if history != [] {
      var front, last := history[..|history| - 1], history[|history| - 1];
      RetireLive(front, sel, fate);
      assert Retire(history, sel, fate)[..|Retire(history, sel, fate)| - 1] == Retire(front, sel, fate);
      if last.fate.Waiting? {
        assert Live(history)[..|Live(history)| - 1] == Live(front);
      }
    }
  }

  lemma {:induction false} RetriedItems(rows: seq<QueueEntry>, p: Retry)
    ensures Items(Retried(rows, p)) == Items(rows)
    decreases |rows|
  {
    if rows != [] {
      var front := rows[..|rows| - 1];
      RetriedItems(front, p);
      assert Retried(rows, p)[..|Retried(rows, p)| - 1] == Retried(front, p);
    }
  }

  lemma LiveSnoc(history: seq<Record>, r: Record)
    ensures Live(history + [r]) == if r.fate.Waiting? then Live(history) + [r.item] else Live(history)
  {
    assert (history + [r])[..|history|] == history;
  }

  // The last row's record, split off.
  lemma BornLast(history: seq<Record>, rows: seq<QueueEntry>)
    requires rows != []
    ensures var front, last := rows[..|rows| - 1], rows[|rows| - 1];
            history + Born(rows) == (history + Born(front)) + [Record(Item(last.updateID, CoreOf(last)), Waiting)]
  {
  }

  lemma {:induction false} LiveBorn(history: seq<Record>, rows: seq<QueueEntry>)
    ensures Live(history + Born(rows)) == Live(history) + Items(rows)
    decreases |rows|
  {
    if rows == [] {
      assert history + Born(rows) == history;
    } else {
      var front, last := rows[..|rows| - 1], rows[|rows| - 1];
      LiveBorn(history, front);
      BornLast(history, rows);
      LiveSnoc(history + Born(front), Record(Item(last.updateID, CoreOf(last)), Waiting));
    }
  }

  lemma {:induction false} ItemsJoin(a: seq<QueueEntry>, b: seq<QueueEntry>)
    ensures Items(a + b) == Items(a) + Items(b)
    decreases |b|
  {
    if b == [] {
      assert a + b == a;
    } else {
      var front := b[..|b| - 1];
      ItemsJoin(a, front);
      assert (a + b)[..|a + b| - 1] == a + front;
    }
  }

  // Every row ever saved is still in the queue, unchanged but for its retry state, or has
  // met its fate; and the queue holds nothing else.
  ghost predicate Conserved(s: State) {
    Valid(s.tables) && Items(s.tables.rows) == Live(s.history)
  }

  lemma SavedConserves(s: State, t: Tables)
    requires Conserved(s) && Valid(t) && s.tables.rows <= t.rows
    ensures Conserved(Saved(s, t))
  {
    var before, added := s.tables.rows, t.rows[|s.tables.rows|..];
    assert t.rows == before + added;
    ItemsJoin(before, added);
    LiveBorn(s.history, added);
  }

  lemma DeletedConserves(s: State, sel: Selector, fate: Fate)
    requires Conserved(s) && !fate.Waiting?
    ensures Valid(Delete(s.tables, sel)) && Items(Delete(s.tables, sel).rows) == Live(Retire(s.history, sel, fate))
  {
    DeleteItems(s.tables.rows, sel);
    RetireLive(s.history, sel, fate);
    DeleteValid(s.tables, sel);
  }

  lemma ProcessConserves(s: State, w: World, now: Time, commit: bool, burnt: nat)
    requires Conserved(s) && s.round != []
    ensures Conserved(StepProcess(s, w, now, commit, burnt))
  {
    var done := FannedOut(s.tables, w, s.round[0], now);
    if done.Ok? && commit {
      GrowsOnFanOut(s.tables, w, s.round[0], now);
      SaveUpdatesValid(w.trim, s.tables, Build(w, s.round[0], now).value, now);
      SavedConserves(s, done.value);
    }
  }

  lemma FireConserves(s: State, trim: string -> string, trigger: Trigger, now: Time, commit: bool, burnt: nat)
    requires Conserved(s)
    ensures Conserved(StepFire(s, trim, trigger, now, commit, burnt))
  {
    var done := SaveUpdate(trim, s.tables, TriggerEntry(trigger, now), now);
    if done.Ok? && commit {
      InsertValid(s.tables, NormalizeEntry(trim, TriggerEntry(trigger, now), now).value);
      SavedConserves(s, done.value);
    }
  }

  // Only rows and their items matter to conservation.
  lemma SameItemsConserve(s: State, t: Tables)
    requires Conserved(s) && Valid(t) && Items(t.rows) == Items(s.tables.rows)
    ensures Conserved(s.(tables := t))
  {
  }

  lemma FailedConserves(s: State, trim: string -> string, hook: Webhook, e: QueueEntry, error: string, next: Time, now: Time)
    requires Conserved(s) && Failed(trim, s.tables, hook, e, error, next, now).Ok?
    ensures Conserved(s.(tables := Failed(trim, s.tables, hook, e, error, next, now).value))
  {
    var p := Retry(hook.botAccountID, e.updateID, now, next, error);
    RetriedItems(s.tables.rows, p);
    RetriedValid(s.tables, p);
    SameItemsConserve(s, Failed(trim, s.tables, hook, e, error, next, now).value);
  }

  lemma DeliverConserves(s: State, trim: string -> string, hook: Webhook, e: QueueEntry, answer: Answer,
                         settings: RetrySettings, now: Time, commit: bool)
    requires Conserved(s)
    ensures Conserved(StepDeliver(s, trim, hook, e, answer, settings, now, commit))
  {
    var done := AfterAnswer(trim, s.tables, hook, e, answer, settings, now);
    if done.Ok? && commit {
      match answer {
        case Success => DeletedConserves(s, Exactly(hook.botAccountID, e.updateID), Answered);
        case Failure(error) => FailedConserves(s, trim, hook, e, error, NextAttempt(settings, e, now), now);
      }
    }
  }

  lemma InsideConserves(s: State, a: Action)
    requires Conserved(s) && Enabled(s, a) && !Outside(a)
    ensures Conserved(Step(s, a))
  {
    match a {
      case Append(_) =>
      case Load(_) =>
      case Process(w, now, commit, burnt) => ProcessConserves(s, w, now, commit, burnt);
      case Stop =>
      case ReadHooks =>
      case Fire(trim, trigger, now, commit, burnt) => FireConserves(s, trim, trigger, now, commit, burnt);
    }
  }

  lemma AckConserves(s: State, bot: string, offset: int)
    requires Conserved(s)
    ensures Conserved(Deleted(s, Below(bot, offset), Acked(offset)))
  {
    DeletedConserves(s, Below(bot, offset), Acked(offset));
  }

  lemma SetHookConserves(s: State, trim: string -> string, bot: string, p: WebhookParams, now: Time, commit: bool)
    requires Conserved(s)
    ensures Conserved(StepSetHook(s, trim, bot, p, now, commit))
  {
    DeletedConserves(s, AllOf(bot), Dropped);
  }

  lemma DeleteHookConserves(s: State, bot: string, drop: bool, commit: bool)
    requires Conserved(s)
    ensures Conserved(StepDeleteHook(s, bot, drop, commit))
  {
    DeletedConserves(s, AllOf(bot), Dropped);
  }

  lemma {:induction false} OutsideConserves(s: State, a: Action)
    requires Conserved(s) && Enabled(s, a) && Outside(a)
    ensures Conserved(Step(s, a))
  {
    match a {
      case Ack(bot, offset) => AckConserves(s, bot, offset);
      case Deliver(trim, hook, e, answer, settings, now, commit) => DeliverConserves(s, trim, hook, e, answer, settings, now, commit);
      case SetHook(trim, bot, p, now, commit) => SetHookConserves(s, trim, bot, p, now, commit);
      case DeleteHook(bot, drop, commit) => DeleteHookConserves(s, bot, drop, commit);
    }
  }

  // Conservation, step by step.
  lemma {:induction false} StepConserves(s: State, a: Action)
    requires Conserved(s) && Enabled(s, a)
    ensures Conserved(Step(s, a))
  {
    if Outside(a) {
      OutsideConserves(s, a);
    } else {
      InsideConserves(s, a);
    }
  }
}
