// What every run of the bot pipeline keeps: fates are final, fan-out is exactly-once, and
// every saved entry is well shaped.
module BotRuns {
  import opened Outcomes
  import opened Text
  import opened BotUpdates
  import opened BotTables
  import opened BotService
  import opened BotPipeline

  // --- fates are final ---

  ghost predicate Extends(h: seq<Record>, later: seq<Record>) {
    && |h| <= |later|
    && forall i :: 0 <= i < |h| ==> later[i].item == h[i].item && (h[i].fate.Waiting? || later[i].fate == h[i].fate)
  }

  lemma {:induction false} RetireAt(h: seq<Record>, sel: Selector, fate: Fate, i: nat)
    requires i < |h|
    ensures |Retire(h, sel, fate)| == |h|
    ensures Retire(h, sel, fate)[i] == if RecordHit(sel, h[i]) then h[i].(fate := fate) else h[i]
    decreases |h|
  {
    var n := |h| - 1;
    if i < n {
      RetireAt(h[..n], sel, fate, i);
    } else if n > 0 {
      RetireAt(h[..n], sel, fate, 0);
    }
  }

  lemma RetireLength(h: seq<Record>, sel: Selector, fate: Fate)
    ensures |Retire(h, sel, fate)| == |h|
  {
    if h != [] {
      RetireAt(h, sel, fate, 0);
    }
  }

  lemma RetireExtends(h: seq<Record>, sel: Selector, fate: Fate)
    ensures Extends(h, Retire(h, sel, fate))
  {
    RetireLength(h, sel, fate);
    forall i | 0 <= i < |h|
      ensures Retire(h, sel, fate)[i].item == h[i].item && (h[i].fate.Waiting? || Retire(h, sel, fate)[i].fate == h[i].fate)
    {
      RetireAt(h, sel, fate, i);
    }
  }

  // The deletions of a step, with the fate they give; None when it deletes nothing.
  ghost function Deletion(s: State, a: Action): Option<(Selector, Fate)> {
    match a
    case Ack(bot, offset) => if offset > 0 then Some((Below(bot, offset), Acked(offset))) else None
    case Deliver(trim, hook, e, answer, settings, now, commit) =>
      if answer.Success? && commit && AfterAnswer(trim, s.tables, hook, e, answer, settings, now).Ok?
      then Some((Exactly(hook.botAccountID, e.updateID), Answered)) else None
    case SetHook(trim, bot, p, now, commit) =>
      if p.dropPending && commit && WebhookSet(trim, s.tables, bot, WebhookOf(bot, p, now), p.dropPending, now).Ok?
      then Some((AllOf(bot), Dropped)) else None
    case DeleteHook(bot, drop, commit) => if drop && commit then Some((AllOf(bot), Dropped)) else None
    case _ => None
  }

  ghost predicate Saves(a: Action) {
    a.Process? || a.Fire?
  }

  lemma StepHistory(s: State, a: Action)
    requires Enabled(s, a) && !Saves(a)
    ensures Step(s, a).history
            == if Deletion(s, a).Some? then Retire(s.history, Deletion(s, a).value.0, Deletion(s, a).value.1) else s.history
  {
  }

  lemma SavingExtends(s: State, a: Action)
    requires Enabled(s, a) && Saves(a)
    ensures s.history <= Step(s, a).history
  {
  }

  lemma StepExtends(s: State, a: Action)
    requires Enabled(s, a)
    ensures Extends(s.history, Step(s, a).history)
  {
    if Saves(a) {
      SavingExtends(s, a);
    } else {
      StepHistory(s, a);
      if Deletion(s, a).Some? {
        RetireExtends(s.history, Deletion(s, a).value.0, Deletion(s, a).value.1);
      }
    }
  }

  // A waiting row is retired only by an offset beyond its ID, by a 2xx answer to its own
  // delivery, or by a drop request for its bot.
  ghost predicate Retires(a: Action, item: Item) {
    || (a.Ack? && a.bot == item.core.bot && a.offset > item.updateID)
    || (a.Deliver? && a.commit && a.answer.Success? && a.hook.botAccountID == item.core.bot && a.e.updateID == item.updateID)
    || (a.SetHook? && a.commit && a.params.dropPending && a.bot == item.core.bot)
    || (a.DeleteHook? && a.commit && a.drop && a.bot == item.core.bot)
  }

  lemma OnlyRetiringSteps(s: State, a: Action, i: nat)
    requires Enabled(s, a) && i < |s.history| && s.history[i].fate.Waiting?
    requires i < |Step(s, a).history| && !Step(s, a).history[i].fate.Waiting?
    ensures Retires(a, s.history[i].item)
  {
    if Saves(a) {
      SavingExtends(s, a);
    } else {
      StepHistory(s, a);
      if Deletion(s, a).Some? {
        RetireAt(s.history, Deletion(s, a).value.0, Deletion(s, a).value.1, i);
      }
    }
  }

  // --- fan-out ---

  ghost predicate LogOK(log: seq<Event>) {
    && (forall i :: 0 <= i < |log| ==> GoodEvent(log[i]) && log[i].sequence >= 1)
    && (forall i, j :: 0 <= i < j < |log| ==> log[i].sequence < log[j].sequence && log[i].eventID != log[j].eventID)
  }

  // The sequence of the n-th event, 0 before the first.
  ghost function SequenceAt(log: seq<Event>, n: nat): nat
    requires n <= |log|
  {
    if n == 0 then 0 else log[n - 1].sequence
  }

  // These entries are what the event builds in the world and at the time of its turn.
  ghost predicate Built(event: Event, entries: seq<QueueEntry>, turn: Turn) {
    UsableWorld(turn.w) && turn.now > 0 && Build(turn.w, event, turn.now) == Ok(entries)
  }

  ghost function Flat(batches: seq<seq<QueueEntry>>): seq<Core> {
    if batches == [] then [] else Flat(batches[..|batches| - 1]) + Cores(batches[|batches| - 1])
  }

  // The fan-out entries of a history, in the order they were saved.
  ghost function FanoutCores(h: seq<Record>): seq<Core> {
    if h == [] then [] else
    var front, last := FanoutCores(h[..|h| - 1]), h[|h| - 1];
    if FanoutType(last.item.core.updateType) then front + [last.item.core] else front
  }

  ghost predicate Known(log: seq<Event>, n: nat, eventID: string) {
    exists k :: 0 <= k < n && k < |log| && log[k].eventID == eventID
  }

  ghost predicate Named(log: seq<Event>, n: nat, r: Record) {
    FanoutType(r.item.core.updateType) ==> Known(log, n, Before(r.item.core.eventID, ':'))
  }

  ghost predicate AllNamed(log: seq<Event>, n: nat, h: seq<Record>) {
    forall i :: 0 <= i < |h| ==> Named(log, n, h[i])
  }

  ghost predicate ShapedCore(c: Core) {
    c.updateType != Unspecified && forall t :: Has(c.payload, t) <==> t == c.updateType
  }

  ghost predicate AllShaped(h: seq<Record>) {
    forall i :: 0 <= i < |h| ==> ShapedCore(h[i].item.core)
  }

  // The cursor stands after the committed events, and what is loaded follows them.
  ghost predicate CursorInv(s: State) {
    && LogOK(s.log)
    && |s.batches| <= |s.log|
    && s.tables.cursor == SequenceAt(s.log, |s.batches|)
    && s.round <= s.log[|s.batches|..]
  }

  ghost predicate FanoutInv(s: State) {
    && CursorInv(s)
    && |s.turns| == |s.batches|
    && (forall k :: 0 <= k < |s.batches| ==> Built(s.log[k], s.batches[k], s.turns[k]))
    && FanoutCores(s.history) == Flat(s.batches)
    && AllNamed(s.log, |s.batches|, s.history)
    && AllShaped(s.history)
  }

  lemma AboveSnoc(front: seq<Event>, event: Event, cursor: nat)
    ensures Above(front + [event], cursor)
            == if event.sequence > cursor then Above(front, cursor) + [event] else Above(front, cursor)
  {
    assert (front + [event])[..|front|] == front;
  }

  // What lies above the cursor is the log from there on.
  lemma {:induction false} AboveIsRest(log: seq<Event>, n: nat, m: nat)
    requires LogOK(log) && n <= |log| && m <= |log|
    ensures Above(log[..m], SequenceAt(log, n)) == if m <= n then [] else log[n..m]
    decreases m
  {
    if m > 0 {
      var k, cursor := m - 1, SequenceAt(log, n);
      AboveIsRest(log, n, k);
      SequenceSplits(log, n, k);
      AboveSnoc(log[..k], log[k], cursor);
      SliceSnoc(log, n, k, m);
    }
  }

  lemma SequenceSplits(log: seq<Event>, n: nat, k: nat)
    requires LogOK(log) && n <= |log| && k < |log|
    ensures log[k].sequence > SequenceAt(log, n) <==> k >= n
  {
  }

  lemma SliceSnoc(log: seq<Event>, n: nat, k: nat, m: nat)
    requires m == k + 1 && m <= |log|
    ensures log[..m] == log[..k] + [log[k]]
    ensures n <= k ==> log[n..m] == log[n..k] + [log[k]]
    ensures n == k ==> log[n..m] == [log[k]]
  {
  }

  lemma {:induction false} LoadKeepsCursor(s: State, batch: int)
    requires CursorInv(s)
    ensures CursorInv(s.(round := Loaded(s.log, s.tables.cursor, batch)))
  {
    LoadedFollows(s.log, |s.batches|, batch);
  }

  // What a round loads follows the events before the cursor.
  lemma {:induction false} LoadedFollows(log: seq<Event>, n: nat, batch: int)
    requires LogOK(log) && n <= |log|
    ensures Loaded(log, SequenceAt(log, n), batch) <= log[n..]
  {
    AboveIsRest(log, n, |log|);
    assert log[..|log|] == log;
    assert log[n..|log|] == log[n..];
    assert |log| <= n ==> log[n..] == [];
  }

  lemma {:induction false} CoresAt(entries: seq<QueueEntry>, i: nat)
    requires i < |entries|
    ensures |Cores(entries)| == |entries| && Cores(entries)[i] == CoreOf(entries[i])
    decreases |entries|
  {
    var n := |entries| - 1;
    if i < n {
      CoresAt(entries[..n], i);
    } else if n > 0 {
      CoresAt(entries[..n], 0);
    }
  }

  lemma CoresLength(entries: seq<QueueEntry>)
    ensures |Cores(entries)| == |entries|
  {
    if entries != [] {
      CoresAt(entries, 0);
    }
  }

  lemma CoresSnoc(entries: seq<QueueEntry>, e: QueueEntry)
    ensures Cores(entries + [e]) == Cores(entries) + [CoreOf(e)]
  {
    assert (entries + [e])[..|entries|] == entries;
  }

  // No fan-out row names this event.
  ghost predicate FreshFor(rows: seq<QueueEntry>, eventID: string) {
    forall i :: 0 <= i < |rows| ==> (FanoutType(rows[i].updateType) ==> Before(rows[i].eventID, ':') != eventID)
  }

  // The batch of a fresh event meets no taken key: each entry becomes a row.
  lemma {:induction false} SaveFresh(trim: string -> string, t: Tables, event: Event, entries: seq<QueueEntry>, now: Time)
    requires GoodBatch(trim, event, entries) && FreshFor(t.rows, event.eventID)
    ensures SaveUpdates(trim, t, entries, now).Ok?
    ensures var saved := SaveUpdates(trim, t, entries, now).value;
            t.rows <= saved.rows && Cores(saved.rows[|t.rows|..]) == Cores(entries)
    decreases |entries|
  {
    if entries == [] {
      assert t.rows[|t.rows|..] == [];
    } else {
      var front, e := entries[..|entries| - 1], entries[|entries| - 1];
      SaveFresh(trim, t, event, front, now);
      var before := SaveUpdates(trim, t, front, now).value;
      var added := before.rows[|t.rows|..];
      SaveFreshOne(trim, t, event, front, e, before.rows, added);
      assert NormalizeEntry(trim, e, now) == Ok(e);
      var saved := Insert(before, e);
      var row := e.(updateID := before.nextID);
      assert saved.rows[|t.rows|..] == added + [row];
      CoresSnoc(added, row);
      assert CoreOf(row) == CoreOf(e);
    }
  }

  lemma {:induction false} SaveFreshOne(trim: string -> string, t: Tables, event: Event, front: seq<QueueEntry>, e: QueueEntry,
                     rows: seq<QueueEntry>, added: seq<QueueEntry>)
    requires GoodEntry(trim, event, e) && FreshFor(t.rows, event.eventID)
    requires forall i :: 0 <= i < |front| ==> front[i].botAccountID != e.botAccountID
    requires rows == t.rows + added && Cores(added) == Cores(front)
    ensures !KeyTaken(rows, e)
  {
    CoresLength(added);
    CoresLength(front);
    forall i | 0 <= i < |rows|
      ensures !SameKey(rows[i], e)
    {
      if i >= |t.rows| {
        var k := i - |t.rows|;
        CoresAt(added, k);
        CoresAt(front, k);
      }
    }
  }

  // --- rows come from history ---

  lemma {:induction false} ItemsAt(rows: seq<QueueEntry>, i: nat)
    requires i < |rows|
    ensures |Items(rows)| == |rows| && Items(rows)[i] == Item(rows[i].updateID, CoreOf(rows[i]))
    decreases |rows|
  {
    var n := |rows| - 1;
    if i < n {
      ItemsAt(rows[..n], i);
    } else if n > 0 {
      ItemsAt(rows[..n], 0);
    }
  }

  lemma {:induction false} LiveOrigin(h: seq<Record>, i: nat) returns (j: nat)
    requires i < |Live(h)|
    ensures j < |h| && h[j].item == Live(h)[i]
    decreases |h|
  {
    var n := |h| - 1;
    if i < |Live(h[..n])| {
      j := LiveOrigin(h[..n], i);
    } else {
      j := n;
    }
  }

  lemma NextEventFresh(s: State)
    requires Conserved(s) && FanoutInv(s) && s.round != []
    ensures s.round[0] == s.log[|s.batches|] && FreshFor(s.tables.rows, s.round[0].eventID)
  {
    var event := s.round[0];
    assert event == s.log[|s.batches|..][0];
    var rows := s.tables.rows;
    forall i | 0 <= i < |rows| && FanoutType(rows[i].updateType)
      ensures Before(rows[i].eventID, ':') != event.eventID
    {
      ItemsAt(rows, i);
      var j := LiveOrigin(s.history, i);
      assert Named(s.log, |s.batches|, s.history[j]);
    }
  }

  // --- the fan-out invariant, step by step ---

  lemma {:induction false} BornAt(rows: seq<QueueEntry>, i: nat)
    requires i < |rows|
    ensures |Born(rows)| == |rows| && Born(rows)[i].item == Item(rows[i].updateID, CoreOf(rows[i]))
    decreases |rows|
  {
    var n := |rows| - 1;
    if i < n {
      BornAt(rows[..n], i);
    } else if n > 0 {
      BornAt(rows[..n], 0);
    }
  }

  lemma BornLength(rows: seq<QueueEntry>)
    ensures |Born(rows)| == |rows|
  {
    if rows != [] {
      BornAt(rows, 0);
    }
  }

  lemma FanoutCoresSnoc(h: seq<Record>, r: Record)
    ensures FanoutCores(h + [r])
            == if FanoutType(r.item.core.updateType) then FanoutCores(h) + [r.item.core] else FanoutCores(h)
  {
    assert (h + [r])[..|h|] == h;
  }

  lemma {:induction false} FanoutCoresBorn(h: seq<Record>, rows: seq<QueueEntry>)
    requires forall i :: 0 <= i < |rows| ==> FanoutType(rows[i].updateType)
    ensures FanoutCores(h + Born(rows)) == FanoutCores(h) + Cores(rows)
    decreases |rows|
  {
    if rows == [] {
      assert h + Born(rows) == h;
    } else {
      var front := rows[..|rows| - 1];
      var last := rows[|rows| - 1];
      FanoutCoresBorn(h, front);
      BornLast(h, rows);
      FanoutCoresSnoc(h + Born(front), Record(Item(last.updateID, CoreOf(last)), Waiting));
    }
  }

  lemma {:induction false} FanoutCoresBornNone(h: seq<Record>, rows: seq<QueueEntry>)
    requires forall i :: 0 <= i < |rows| ==> !FanoutType(rows[i].updateType)
    ensures FanoutCores(h + Born(rows)) == FanoutCores(h)
    decreases |rows|
  {
    if rows == [] {
      assert h + Born(rows) == h;
    } else {
      var front := rows[..|rows| - 1];
      var last := rows[|rows| - 1];
      FanoutCoresBornNone(h, front);
      BornLast(h, rows);
      FanoutCoresSnoc(h + Born(front), Record(Item(last.updateID, CoreOf(last)), Waiting));
    }
  }

  lemma {:induction false} FanoutCoresRetire(h: seq<Record>, sel: Selector, fate: Fate)
    ensures FanoutCores(Retire(h, sel, fate)) == FanoutCores(h)
    decreases |h|
  {
    if h != [] {
      var front := h[..|h| - 1];
      FanoutCoresRetire(front, sel, fate);
      var after := Retire(h, sel, fate);
      assert after[..|after| - 1] == Retire(front, sel, fate);
    }
  }

  lemma {:induction false} KnownGrows(log: seq<Event>, n: nat, longer: seq<Event>, m: nat, h: seq<Record>)
    requires log <= longer && n <= m && AllNamed(log, n, h)
    ensures AllNamed(longer, m, h)
  {
    forall i | 0 <= i < |h| && FanoutType(h[i].item.core.updateType)
      ensures Known(longer, m, Before(h[i].item.core.eventID, ':'))
    {
      assert Named(log, n, h[i]);
      var k :| 0 <= k < n && k < |log| && log[k].eventID == Before(h[i].item.core.eventID, ':');
      assert longer[k] == log[k];
    }
  }

  lemma RetireKeepsRecords(log: seq<Event>, n: nat, h: seq<Record>, sel: Selector, fate: Fate)
    requires AllNamed(log, n, h) && AllShaped(h)
    ensures AllNamed(log, n, Retire(h, sel, fate)) && AllShaped(Retire(h, sel, fate))
  {
    RetireLength(h, sel, fate);
    forall i | 0 <= i < |h|
      ensures Retire(h, sel, fate)[i].item == h[i].item
    {
      RetireAt(h, sel, fate, i);
    }
    forall i | 0 <= i < |h|
      ensures Named(log, n, Retire(h, sel, fate)[i])
    {
      assert Named(log, n, h[i]);
    }
  }

  // The rows an event adds: named after it, well shaped, and all fan-out rows.
  lemma {:induction false} AddedRows(trim: string -> string, log: seq<Event>, n: nat, entries: seq<QueueEntry>, added: seq<QueueEntry>)
    requires n < |log| && GoodBatch(trim, log[n], entries) && Cores(added) == Cores(entries)
    ensures AllNamed(log, n + 1, Born(added)) && AllShaped(Born(added))
    ensures forall i :: 0 <= i < |added| ==> FanoutType(added[i].updateType)
  {
    CoresLength(added);
    CoresLength(entries);
    BornLength(added);
    forall i | 0 <= i < |added|
      ensures FanoutType(added[i].updateType) && Named(log, n + 1, Born(added)[i]) && ShapedCore(Born(added)[i].item.core)
    {
      CoresAt(added, i);
      CoresAt(entries, i);
      BornAt(added, i);
      assert GoodEntry(trim, log[n], entries[i]);
    }
  }

  lemma FlatSnoc(batches: seq<seq<QueueEntry>>, entries: seq<QueueEntry>)
    ensures Flat(batches + [entries]) == Flat(batches) + Cores(entries)
  {
    assert (batches + [entries])[..|batches|] == batches;
  }

  // What the next event adds to the history.
  lemma {:induction false} ProcessedHistory(s: State, w: World, now: Time, entries: seq<QueueEntry>, added: seq<QueueEntry>)
    requires Conserved(s) && FanoutInv(s) && s.round != [] && UsableWorld(w) && now > 0
    requires Build(w, s.round[0], now) == Ok(entries) && Cores(added) == Cores(entries)
    ensures Built(s.round[0], entries, Turn(w, now, true))
    ensures var h := s.history + Born(added);
            && FanoutCores(h) == Flat(s.batches + [entries])
            && AllNamed(s.log, |s.batches| + 1, h)
            && AllShaped(h)
  {
    var n := |s.batches|;
    NextEventFresh(s);
    BuildIsGoodBatch(w, s.round[0], now);
    AddedRows(w.trim, s.log, n, entries, added);
    FanoutCoresBorn(s.history, added);
    FlatSnoc(s.batches, entries);
    KnownGrows(s.log, n, s.log, n + 1, s.history);
    NamedJoin(s.log, n + 1, s.history, Born(added));
  }

  lemma {:induction false} NamedJoin(log: seq<Event>, n: nat, h: seq<Record>, more: seq<Record>)
    requires AllNamed(log, n, h) && AllNamed(log, n, more) && AllShaped(h) && AllShaped(more)
    ensures AllNamed(log, n, h + more) && AllShaped(h + more)
  {
    forall i | 0 <= i < |h + more|
      ensures Named(log, n, (h + more)[i])
    {
      if i >= |h| {
        assert (h + more)[i] == more[i - |h|];
      }
    }
  }

  // A fresh batch saves, and its rows are new.
  lemma ProcessSaves(s: State, w: World, now: Time) returns (entries: seq<QueueEntry>, added: seq<QueueEntry>)
    requires Conserved(s) && FanoutInv(s) && s.round != [] && UsableWorld(w) && now > 0
    requires FannedOut(s.tables, w, s.round[0], now).Ok?
    ensures Build(w, s.round[0], now) == Ok(entries) && Cores(added) == Cores(entries)
    ensures var t := FannedOut(s.tables, w, s.round[0], now).value;
            && |t.rows| >= |s.tables.rows| && t.rows[|s.tables.rows|..] == added
            && t.cursor == SequenceAt(s.log, |s.batches| + 1)
  {
    var event := s.round[0];
    entries := Build(w, event, now).value;
    NextEventFresh(s);
    BuildIsGoodBatch(w, event, now);
    SaveFresh(w.trim, s.tables, event, entries, now);
    added := FannedOut(s.tables, w, event, now).value.rows[|s.tables.rows|..];
    SavesKeepCursor(w.trim, s.tables, entries, now);
    ProcessCursor(s);
  }

  lemma {:induction false} CommittedKeepsFanout(s: State, t: Tables, entries: seq<QueueEntry>, turn: Turn, added: seq<QueueEntry>)
    requires FanoutInv(s) && s.round != []
    requires |t.rows| >= |s.tables.rows| && t.rows[|s.tables.rows|..] == added
    requires t.cursor == SequenceAt(s.log, |s.batches| + 1) && |s.batches| < |s.log|
    requires Built(s.log[|s.batches|], entries, turn) && s.round[1..] <= s.log[|s.batches| + 1..]
    requires var h := s.history + Born(added);
             FanoutCores(h) == Flat(s.batches + [entries]) && AllNamed(s.log, |s.batches| + 1, h) && AllShaped(h)
    ensures FanoutInv(Committed(s, t, entries, turn))
  {
  }

  lemma ProcessKeepsFanout(s: State, w: World, now: Time, commit: bool, burnt: nat)
    requires Conserved(s) && FanoutInv(s) && s.round != [] && UsableWorld(w) && now > 0
    ensures FanoutInv(StepProcess(s, w, now, commit, burnt))
  {
    var done := FannedOut(s.tables, w, s.round[0], now);
    if done.Ok? && commit {
      var entries, added := ProcessSaves(s, w, now);
      ProcessedHistory(s, w, now, entries, added);
      ProcessCursor(s);
      CommittedKeepsFanout(s, done.value, entries, Turn(w, now, true), added);
    }
  }

  lemma ProcessCursor(s: State)
    requires CursorInv(s) && s.round != []
    ensures s.round[0] == s.log[|s.batches|] && s.round[0].sequence > s.tables.cursor
    ensures s.round[1..] <= s.log[|s.batches| + 1..]
    ensures s.round[0].sequence == SequenceAt(s.log, |s.batches| + 1)
  {
    var rest := s.log[|s.batches|..];
    assert s.round[0] == rest[0];
    assert rest[1..] == s.log[|s.batches| + 1..];
  }

  lemma {:induction false} SavesKeepCursor(trim: string -> string, t: Tables, entries: seq<QueueEntry>, now: Time)
    requires SaveUpdates(trim, t, entries, now).Ok?
    ensures SaveUpdates(trim, t, entries, now).value.cursor == t.cursor
    decreases |entries|
  {
    if entries != [] {
      SavesKeepCursor(trim, t, entries[..|entries| - 1], now);
    }
  }

  lemma FireKeepsFanout(s: State, trim: string -> string, trigger: Trigger, now: Time, commit: bool, burnt: nat)
    requires FanoutInv(s)
    ensures FanoutInv(StepFire(s, trim, trigger, now, commit, burnt))
  {
    var done := SaveUpdate(trim, s.tables, TriggerEntry(trigger, now), now);
    if done.Ok? && commit {
      TriggerFacts(trigger, now);
      var added := done.value.rows[|s.tables.rows|..];
      BornLength(added);
      forall i | 0 <= i < |added|
        ensures !FanoutType(added[i].updateType) && ShapedCore(Born(added)[i].item.core)
                && Named(s.log, |s.batches|, Born(added)[i])
      {
        BornAt(added, i);
      }
      FanoutCoresBornNone(s.history, added);
      NamedJoin(s.log, |s.batches|, s.history, Born(added));
    }
  }

  lemma AppendKeepsFanout(s: State, event: Event)
    requires FanoutInv(s) && Enabled(s, Append(event))
    ensures FanoutInv(s.(log := s.log + [event]))
  {
    KnownGrows(s.log, |s.batches|, s.log + [event], |s.batches|, s.history);
    AppendKeepsCursor(s, event);
    forall k | 0 <= k < |s.batches|
      ensures Built((s.log + [event])[k], s.batches[k], s.turns[k])
    {
      assert (s.log + [event])[k] == s.log[k];
    }
  }

  lemma {:induction false} AppendKeepsCursor(s: State, event: Event)
    requires CursorInv(s) && Enabled(s, Append(event))
    ensures CursorInv(s.(log := s.log + [event]))
  {
    var n := |s.batches|;
    assert (s.log + [event])[n..] == s.log[n..] + [event];
  }

  // Steps that only change fates, retry state or webhooks.
  lemma OtherKeepsFanout(s: State, a: Action)
    requires FanoutInv(s) && Enabled(s, a) && Outside(a)
    ensures FanoutInv(Step(s, a))
  {
    StepHistory(s, a);
    if Deletion(s, a).Some? {
      var (sel, fate) := Deletion(s, a).value;
      FanoutCoresRetire(s.history, sel, fate);
      RetireKeepsRecords(s.log, |s.batches|, s.history, sel, fate);
    }
    OtherKeepsRest(s, a);
  }

  lemma OtherKeepsRest(s: State, a: Action)
    requires Enabled(s, a) && Outside(a)
    ensures var r := Step(s, a);
            r.log == s.log && r.round == s.round && r.batches == s.batches && r.turns == s.turns && r.tables.cursor == s.tables.cursor
  {
  }

  lemma InsideKeepsFanout(s: State, a: Action)
    requires Conserved(s) && FanoutInv(s) && Enabled(s, a) && !Outside(a)
    ensures FanoutInv(Step(s, a))
  {
    match a {
      case Append(event) => AppendKeepsFanout(s, event);
      case Load(batch) => LoadKeepsCursor(s, batch);
      case Process(w, now, commit, burnt) => ProcessKeepsFanout(s, w, now, commit, burnt);
      case Stop =>
      case ReadHooks =>
      case Fire(trim, trigger, now, commit, burnt) => FireKeepsFanout(s, trim, trigger, now, commit, burnt);
    }
  }

  lemma {:induction false} StepKeepsFanout(s: State, a: Action)
    requires Conserved(s) && FanoutInv(s) && Enabled(s, a)
    ensures FanoutInv(Step(s, a))
  {
    if Outside(a) {
      OtherKeepsFanout(s, a);
    } else {
      InsideKeepsFanout(s, a);
    }
  }

  // --- runs ---

  ghost predicate Run(s: State, actions: seq<Action>, end: State)
    decreases |actions|
  {
    if actions == [] then end == s else Enabled(s, actions[0]) && Run(Step(s, actions[0]), actions[1..], end)
  }

  // A row's record says what became of it: acknowledged by a larger offset, or otherwise.
  ghost predicate FatesSound(h: seq<Record>) {
    forall i :: 0 <= i < |h| && h[i].fate.Acked? ==> h[i].item.updateID < h[i].fate.offset
  }

  lemma StepKeepsFates(s: State, a: Action)
    requires Enabled(s, a) && FatesSound(s.history)
    ensures FatesSound(Step(s, a).history)
  {
    if Saves(a) {
      SavingExtends(s, a);
      SavedWaits(s, a);
    } else {
      StepHistory(s, a);
      if Deletion(s, a).Some? {
        var (sel, fate) := Deletion(s, a).value;
        RetireLength(s.history, sel, fate);
        forall i | 0 <= i < |s.history|
          ensures Retire(s.history, sel, fate)[i] == if RecordHit(sel, s.history[i]) then s.history[i].(fate := fate) else s.history[i]
        {
          RetireAt(s.history, sel, fate, i);
        }
      }
    }
  }

  lemma {:induction false} BornWaits(rows: seq<QueueEntry>, i: nat)
    requires i < |rows|
    ensures |Born(rows)| == |rows| && Born(rows)[i].fate.Waiting?
    decreases |rows|
  {
    var n := |rows| - 1;
    if i < n {
      BornWaits(rows[..n], i);
    } else if n > 0 {
      BornWaits(rows[..n], 0);
    }
  }

  lemma SavedHistory(s: State, a: Action) returns (added: seq<QueueEntry>)
    requires Enabled(s, a) && Saves(a)
    ensures Step(s, a).history == s.history + Born(added)
  {
    match a {
      case Process(w, now, commit, burnt) => added := ProcessHistory(s, w, now, commit, burnt);
      case Fire(trim, trigger, now, commit, burnt) => added := FireHistory(s, trim, trigger, now, commit, burnt);
    }
  }

  lemma ProcessHistory(s: State, w: World, now: Time, commit: bool, burnt: nat) returns (added: seq<QueueEntry>)
    requires s.round != []
    ensures StepProcess(s, w, now, commit, burnt).history == s.history + Born(added)
  {
    var done := FannedOut(s.tables, w, s.round[0], now);
    if done.Ok? && commit {
      GrowsOnFanOut(s.tables, w, s.round[0], now);
      added := done.value.rows[|s.tables.rows|..];
    } else {
      added := [];
    }
  }

  lemma FireHistory(s: State, trim: string -> string, trigger: Trigger, now: Time, commit: bool, burnt: nat)
    returns (added: seq<QueueEntry>)
    ensures StepFire(s, trim, trigger, now, commit, burnt).history == s.history + Born(added)
  {
    var done := SaveUpdate(trim, s.tables, TriggerEntry(trigger, now), now);
    added := if done.Ok? && commit then done.value.rows[|s.tables.rows|..] else [];
  }

  lemma SavedWaits(s: State, a: Action)
    requires Enabled(s, a) && Saves(a)
    ensures forall i :: |s.history| <= i < |Step(s, a).history| ==> Step(s, a).history[i].fate.Waiting?
  {
    var added := SavedHistory(s, a);
    var h := s.history + Born(added);
    BornLength(added);
    forall i | |s.history| <= i < |h|
      ensures h[i].fate.Waiting?
    {
      BornWaits(added, i - |s.history|);
    }
  }

  // --- one record for each row ---

  // IDs grow along the history, so a record stands for one row.
  ghost predicate Numbering(h: seq<Record>, next: nat) {
    && (forall i :: 0 <= i < |h| ==> h[i].item.updateID < next)
    && (forall i, j :: 0 <= i < j < |h| ==> h[i].item.updateID < h[j].item.updateID)
  }

  // New rows get IDs from the sequence.
  ghost predicate NewRows(t: Tables, later: Tables) {
    && |t.rows| <= |later.rows| && t.nextID <= later.nextID
    && forall i :: |t.rows| <= i < |later.rows| ==> t.nextID <= later.rows[i].updateID
  }

  lemma {:induction false} SavesNumber(trim: string -> string, t: Tables, entries: seq<QueueEntry>, now: Time)
    requires SaveUpdates(trim, t, entries, now).Ok?
    ensures NewRows(t, SaveUpdates(trim, t, entries, now).value)
    decreases |entries|
  {
    if entries != [] {
      SavesNumber(trim, t, entries[..|entries| - 1], now);
    }
  }

  lemma SavedNumbers(h: seq<Record>, t: Tables, later: Tables)
    requires Numbering(h, t.nextID) && NewRows(t, later) && Valid(later)
    ensures Numbering(h + Born(later.rows[|t.rows|..]), later.nextID)
  {
    var added := later.rows[|t.rows|..];
    BornLength(added);
    forall i | 0 <= i < |added|
      ensures Born(added)[i].item.updateID == later.rows[|t.rows| + i].updateID
    {
      BornAt(added, i);
    }
  }

  lemma ProcessNumbers(s: State, w: World, now: Time, commit: bool, burnt: nat)
    requires Conserved(s) && Numbering(s.history, s.tables.nextID) && s.round != []
    ensures var r := StepProcess(s, w, now, commit, burnt);
            Numbering(r.history, r.tables.nextID)
  {
    var done := FannedOut(s.tables, w, s.round[0], now);
    ProcessConserves(s, w, now, commit, burnt);
    if done.Ok? && commit {
      SavesNumber(w.trim, s.tables, Build(w, s.round[0], now).value, now);
      SavedNumbers(s.history, s.tables, done.value);
    }
  }

  lemma InsertNumbers(t: Tables, e: QueueEntry)
    requires Valid(t)
    ensures NewRows(t, Insert(t, e)) && Valid(Insert(t, e))
  {
    InsertValid(t, e);
  }

  lemma {:induction false} FireNumbers(s: State, trim: string -> string, trigger: Trigger, now: Time, commit: bool, burnt: nat)
    requires Conserved(s) && Numbering(s.history, s.tables.nextID)
    ensures var r := StepFire(s, trim, trigger, now, commit, burnt);
            Numbering(r.history, r.tables.nextID)
  {
    var n := NormalizeEntry(trim, TriggerEntry(trigger, now), now);
    if n.Ok? && commit {
      InsertNumbers(s.tables, n.value);
      SavedNumbers(s.history, s.tables, Insert(s.tables, n.value));
    }
  }

  lemma RetireNumbers(h: seq<Record>, sel: Selector, fate: Fate, next: nat)
    requires Numbering(h, next)
    ensures Numbering(Retire(h, sel, fate), next)
  {
    RetireLength(h, sel, fate);
    forall i | 0 <= i < |h|
      ensures Retire(h, sel, fate)[i].item == h[i].item
    {
      RetireAt(h, sel, fate, i);
    }
  }

  lemma NonSavingKeepsIDs(s: State, a: Action)
    requires Enabled(s, a) && !Saves(a)
    ensures Step(s, a).tables.nextID == s.tables.nextID
  {
  }

  lemma StepNumbers(s: State, a: Action)
    requires Conserved(s) && Numbering(s.history, s.tables.nextID) && Enabled(s, a)
    ensures Numbering(Step(s, a).history, Step(s, a).tables.nextID)
  {
    if a.Process? {
      ProcessNumbers(s, a.w, a.now, a.commit, a.burnt);
    } else if a.Fire? {
      FireNumbers(s, a.trim, a.trigger, a.now, a.commit, a.burnt);
    } else {
      StepHistory(s, a);
      NonSavingKeepsIDs(s, a);
      if Deletion(s, a).Some? {
        RetireNumbers(s.history, Deletion(s, a).value.0, Deletion(s, a).value.1, s.tables.nextID);
      }
    }
  }

  ghost predicate Inv(s: State) {
    Conserved(s) && FanoutInv(s) && FatesSound(s.history) && Numbering(s.history, s.tables.nextID)
  }

  lemma InitialInv()
    ensures Inv(INITIAL)
  {
  }

  // Steps that commit an event: its entries can be built and the transaction goes through.
  ghost predicate Commits(s: State, a: Action) {
    a.Process? && s.round != [] && a.commit && Build(a.w, s.round[0], a.now).Ok?
  }

  ghost function OwnTurn(s: State, a: Action): seq<Turn> {
    if Commits(s, a) then [Turn(a.w, a.now, true)] else []
  }

  // The worlds and clocks of the committing steps of a run, in order.
  ghost function CommittedTurns(s: State, actions: seq<Action>): seq<Turn>
    decreases |actions|
  {
    if actions == [] || !Enabled(s, actions[0]) then []
    else OwnTurn(s, actions[0]) + CommittedTurns(Step(s, actions[0]), actions[1..])
  }

  // A turn is recorded exactly when its step commits: saving a built batch never fails.
  lemma StepRecordsTurn(s: State, a: Action)
    requires Conserved(s) && FanoutInv(s) && Enabled(s, a)
    ensures Step(s, a).turns == s.turns + OwnTurn(s, a)
  {
    if a.Process? {
      ProcessRecordsTurn(s, a.w, a.now, a.commit, a.burnt);
    } else {
      OthersRecordNothing(s, a);
    }
  }

  lemma OthersRecordNothing(s: State, a: Action)
    requires Enabled(s, a) && !a.Process?
    ensures Step(s, a).turns == s.turns
  {
  }

  lemma ProcessRecordsTurn(s: State, w: World, now: Time, commit: bool, burnt: nat)
    requires Conserved(s) && FanoutInv(s) && s.round != [] && UsableWorld(w) && now > 0
    ensures StepProcess(s, w, now, commit, burnt).turns
            == s.turns + if commit && Build(w, s.round[0], now).Ok? then [Turn(w, now, true)] else []
  {
    if Build(w, s.round[0], now).Ok? {
      NextEventFresh(s);
      BuildIsGoodBatch(w, s.round[0], now);
      SaveFresh(w.trim, s.tables, s.round[0], Build(w, s.round[0], now).value, now);
    }
  }

  lemma StepKeepsInv(s: State, a: Action)
    requires Inv(s) && Enabled(s, a)
    ensures Inv(Step(s, a))
  {
    StepConserves(s, a);
    StepKeepsFanout(s, a);
    StepKeepsFates(s, a);
    StepNumbers(s, a);
  }

  // Conservation and exactly-once fan-out over all runs, whatever aborts, stops and interleaves.
  lemma {:induction false} RunKeepsInv(s: State, actions: seq<Action>, end: State)
    requires Inv(s) && Run(s, actions, end)
    ensures Inv(end) && Extends(s.history, end.history) && s.batches <= end.batches
    decreases |actions|
  {
    if actions != [] {
      var a := actions[0];
      var next := Step(s, a);
      StepKeepsInv(s, a);
      StepExtends(s, a);
      StepKeepsBatches(s, a);
      RunKeepsInv(next, actions[1..], end);
      ExtendsTransitive(s.history, next.history, end.history);
    }
  }

  // What a run records are the worlds and clocks of its own committing steps.
  lemma {:induction false} RunRecordsTurns(s: State, actions: seq<Action>, end: State)
    requires Inv(s) && Run(s, actions, end)
    ensures end.turns == s.turns + CommittedTurns(s, actions)
    decreases |actions|
  {
    if actions != [] {
      var a, rest := actions[0], actions[1..];
      StepKeepsInv(s, a);
      StepRecordsTurn(s, a);
      RunRecordsTurns(Step(s, a), rest, end);
      JoinTurns(s.turns, OwnTurn(s, a), CommittedTurns(Step(s, a), rest));
    }
  }

  lemma JoinTurns(a: seq<Turn>, b: seq<Turn>, c: seq<Turn>)
    ensures (a + b) + c == a + (b + c)
  {
  }

  lemma StepKeepsBatches(s: State, a: Action)
    requires Enabled(s, a)
    ensures s.batches <= Step(s, a).batches
  {
  }

  lemma ExtendsTransitive(a: seq<Record>, b: seq<Record>, c: seq<Record>)
    requires Extends(a, b) && Extends(b, c)
    ensures Extends(a, c)
  {
  }

  // From empty tables: the queue is exactly the waiting part of the history, the fan-out part
  // of the history is exactly the batches of the log events up to the cursor, each once and in
  // order, each batch being what its event builds in the world and at the time of the step that
  // committed it, and every row carries exactly the payload its type names.
  lemma FanoutExactlyOnce(actions: seq<Action>, end: State)
    requires Run(INITIAL, actions, end)
    ensures Items(end.tables.rows) == Live(end.history)
    ensures FanoutCores(end.history) == Flat(end.batches)
    ensures |end.batches| <= |end.log|
    ensures forall k :: 0 <= k < |end.log| ==> (k < |end.batches| <==> end.log[k].sequence <= end.tables.cursor)
    ensures end.turns == CommittedTurns(INITIAL, actions) && |end.turns| == |end.batches|
    ensures forall k :: 0 <= k < |end.batches| ==>
                          Build(end.turns[k].w, end.log[k], end.turns[k].now) == Ok(end.batches[k])
    ensures AllShaped(end.history) && Numbering(end.history, end.tables.nextID) && FatesSound(end.history)
  {
    InitialInv();
    RunKeepsInv(INITIAL, actions, end);
    RunRecordsTurns(INITIAL, actions, end);
    assert INITIAL.turns + CommittedTurns(INITIAL, actions) == CommittedTurns(INITIAL, actions);
    CursorSplits(end);
    forall k | 0 <= k < |end.batches|
      ensures Build(end.turns[k].w, end.log[k], end.turns[k].now) == Ok(end.batches[k])
    {
      assert Built(end.log[k], end.batches[k], end.turns[k]);
    }
  }

  lemma CursorSplits(s: State)
    requires CursorInv(s)
    ensures forall k :: 0 <= k < |s.log| ==> (k < |s.batches| <==> s.log[k].sequence <= s.tables.cursor)
  {
  }

  // --- a round as a run ---

  lemma {:induction false} RunSnoc(s: State, actions: seq<Action>, mid: State, a: Action)
    requires Run(s, actions, mid) && Enabled(mid, a)
    ensures Run(s, actions + [a], Step(mid, a))
    decreases |actions|
  {
    if actions == [] {
      assert (actions + [a])[1..] == [];
    } else {
      RunSnoc(Step(s, actions[0]), actions[1..], mid, a);
      assert (actions + [a])[1..] == actions[1..] + [a];
    }
  }

  function ProcessSteps(turns: seq<Turn>, n: nat): seq<Action>
    requires n <= |turns|
  {
    if n == 0 then [] else ProcessSteps(turns, n - 1) + [Process(turns[n - 1].w, turns[n - 1].now, true, 0)]
  }

  // The committed turns of ProcessFanout are steps of a run, with the same tables.
  lemma {:induction false} RoundRuns(s: State, turns: seq<Turn>, n: nat) returns (end: State)
    requires n <= |s.round| && n <= |turns|
    requires forall i :: 0 <= i < n ==> UsableWorld(turns[i].w) && turns[i].now > 0
    requires AfterTurns(s.tables, s.round, turns, n).Ok?
    ensures Run(s, ProcessSteps(turns, n), end)
    ensures Ok(end.tables) == AfterTurns(s.tables, s.round, turns, n) && end.round == s.round[n..]
    decreases n
  {
    if n == 0 {
      end := s;
    } else {
      var mid := RoundRuns(s, turns, n - 1);
      var a := Process(turns[n - 1].w, turns[n - 1].now, true, 0);
      RunSnoc(s, ProcessSteps(turns, n - 1), mid, a);
      end := Step(mid, a);
      assert mid.round[0] == s.round[n - 1];
    }
  }
}
