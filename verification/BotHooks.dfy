// Webhook configuration under delivery rounds: each delivery writes back the webhook row read
// when its round began, so a change made in between is lost, exactly then.
module BotHooks {
  import opened Outcomes
  import opened BotUpdates
  import opened BotTables
  import opened BotService
  import opened BotPipeline
  import opened BotRuns

  // What SetWebhook configures, as opposed to the delivery state beside it.
  datatype Config = Config(url: string, secretToken: string, allowed: seq<UpdateType>, maxConnections: int)

  function ConfigOf(w: Webhook): Config {
    Config(w.url, w.secretToken, w.allowed, w.maxConnections)
  }

  function Stored(t: Tables, bot: string): Option<Config> {
    if bot in t.webhooks then Some(ConfigOf(t.webhooks[bot])) else None
  }

  // The configuration a row has once it is saved.
  function Normalised(trim: string -> string, w: Webhook): Config {
    Config(trim(w.url), trim(w.secretToken), UniqueTypes(w.allowed),
           if w.maxConnections <= 0 then DEFAULT_MAX_CONNECTIONS else w.maxConnections)
  }

  // --- one delivery ---

  // Whatever the answer, a committed delivery leaves the configuration it was started with.
  lemma DeliveryWritesBack(trim: string -> string, t: Tables, w: Webhook, e: QueueEntry, answer: Answer,
                           settings: RetrySettings, now: Time, other: string)
    requires AfterAnswer(trim, t, w, e, answer, settings, now).Ok? && other != trim(w.botAccountID)
    ensures var r, bot := AfterAnswer(trim, t, w, e, answer, settings, now).value, trim(w.botAccountID);
            && Stored(r, bot) == Some(Normalised(trim, w))
            && Stored(r, other) == Stored(t, other)
            && (Hooked(r, bot) <==> trim(w.url) != "")
  {
  }

  // So it keeps the stored configuration exactly when that is the one it was started with.
  lemma DeliveryKeepsConfigIff(trim: string -> string, t: Tables, w: Webhook, e: QueueEntry, answer: Answer,
                               settings: RetrySettings, now: Time)
    requires AfterAnswer(trim, t, w, e, answer, settings, now).Ok?
    ensures var r, bot := AfterAnswer(trim, t, w, e, answer, settings, now).value, trim(w.botAccountID);
            Stored(r, bot) == Stored(t, bot) <==> Stored(t, bot) == Some(Normalised(trim, w))
  {
    DeliveryWritesBack(trim, t, w, e, answer, settings, now, trim(w.botAccountID) + "x");
  }

  // A delivery that read a webhook before it was deleted brings it back, and with it the
  // conflict that keeps the bot from polling.
  lemma StaleWriteBack(trim: string -> string, t: Tables, w: Webhook, e: QueueEntry, answer: Answer,
                       settings: RetrySettings, now: Time)
    requires Holds(t.rows, Exactly(w.botAccountID, e.updateID))
    requires trim(w.botAccountID) == w.botAccountID != "" && trim(w.url) == w.url != ""
    ensures var deleted := WebhookDeleted(t, w.botAccountID, false);
            && Stored(deleted, w.botAccountID) == None && !Hooked(deleted, w.botAccountID)
            && AfterAnswer(trim, deleted, w, e, answer, settings, now).Ok?
            && Stored(AfterAnswer(trim, deleted, w, e, answer, settings, now).value, w.botAccountID) == Some(Normalised(trim, w))
            && Hooked(AfterAnswer(trim, deleted, w, e, answer, settings, now).value, w.botAccountID)
  {
    var deleted := WebhookDeleted(t, w.botAccountID, false);
    assert deleted.rows == t.rows;
    DeliveryWritesBack(trim, deleted, w, e, answer, settings, now, w.botAccountID + "x");
  }

  // --- stored rows are in normal form ---

  lemma {:induction false} UniqueTypesHas(types: seq<UpdateType>, t: UpdateType)
    ensures t in UniqueTypes(types) <==> t in types && t != Unspecified
    decreases |types|
  {
    if types != [] {
      var front := types[..|types| - 1];
      UniqueTypesHas(front, t);
      assert types == front + [types[|types| - 1]];
    }
  }

  // Types that UniqueTypes leaves alone.
  predicate Settled(types: seq<UpdateType>) {
    forall i :: 0 <= i < |types| ==> types[i] != Unspecified && types[i] !in types[..i]
  }

  lemma {:induction false} UniqueTypesSettled(types: seq<UpdateType>)
    ensures Settled(UniqueTypes(types))
    decreases |types|
  {
    if types != [] {
      var front, last := UniqueTypes(types[..|types| - 1]), types[|types| - 1];
      UniqueTypesSettled(types[..|types| - 1]);
      if last != Unspecified && last !in front {
        SettledSnoc(front, last);
      }
    }
  }

  lemma SettledSnoc(front: seq<UpdateType>, last: UpdateType)
    requires Settled(front) && last != Unspecified && last !in front
    ensures Settled(front + [last])
  {
    var types := front + [last];
    forall i | 0 <= i < |types|
      ensures types[i] != Unspecified && types[i] !in types[..i]
    {
      assert types[..i] == front[..i];
      if i < |front| {
        assert types[i] == front[i];
      }
    }
  }

  lemma {:induction false} SettledFixed(types: seq<UpdateType>)
    requires Settled(types)
    ensures UniqueTypes(types) == types
    decreases |types|
  {
    if types != [] {
      var n := |types| - 1;
      var front := types[..n];
      forall i | 0 <= i < n
        ensures front[i] != Unspecified && front[i] !in front[..i]
      {
        assert front[..i] == types[..i] && front[i] == types[i];
      }
      SettledFixed(front);
      assert types == front + [types[n]];
    }
  }

  // --- setting and deleting ---

  // The rows of the bot are gone if they were to be dropped, and no others.
  ghost predicate DroppedIf(before: seq<QueueEntry>, after: seq<QueueEntry>, bot: string, drop: bool) {
    forall e :: e in after <==> e in before && !(drop && e.botAccountID == bot)
  }

  lemma {:induction false} DropPendingIs(t: Tables, bot: string, drop: bool)
    ensures DroppedIf(t.rows, DropPending(t, bot, drop).rows, bot, drop)
  {
    forall e
      ensures e in DropPending(t, bot, drop).rows <==> e in t.rows && !(drop && e.botAccountID == bot)
    {
      WithoutHas(t.rows, AllOf(bot), e);
    }
  }

  // A webhook is refused for an empty URL alone. What is stored is what was asked for, trimmed,
  // every named type once, with forty connections by default and no delivery on record; an
  // existing webhook keeps its creation time, and the other bots keep theirs.
  lemma {:induction false} SetWebhookStores(trim: string -> string, t: Tables, bot: string, p: WebhookParams, now: Time)
    requires trim(bot) == bot != "" && now != 0
    ensures var done := WebhookSet(trim, t, bot, WebhookOf(bot, p, now), p.dropPending, now);
            && (done.Ok? <==> p.url != "")
            && (done.Ok? ==>
                  && DroppedIf(t.rows, done.value.rows, bot, p.dropPending)
                  && done.value.nextID == t.nextID && done.value.cursor == t.cursor
                  && done.value.webhooks.Keys == t.webhooks.Keys + {bot}
                  && (forall other :: other in t.webhooks && other != bot ==> done.value.webhooks[other] == t.webhooks[other])
                  && var w := done.value.webhooks[bot];
                  && w.botAccountID == bot && w.url == trim(p.url) && w.secretToken == trim(p.secretToken)
                  && (forall u :: u in w.allowed <==> u in p.allowed && u != Unspecified)
                  && Settled(w.allowed)
                  && w.maxConnections == (if p.maxConnections <= 0 then 40 else p.maxConnections)
                  && w.lastErrorMessage == "" && w.lastErrorAt == 0 && w.lastSuccessAt == 0
                  && w.createdAt == (if bot in t.webhooks then t.webhooks[bot].createdAt else now) && w.updatedAt == now)
  {
    DropPendingIs(t, bot, p.dropPending);
    UniqueTypesSettled(p.allowed);
    forall u
      ensures u in UniqueTypes(p.allowed) <==> u in p.allowed && u != Unspecified
    {
      UniqueTypesHas(p.allowed, u);
    }
  }

  // Deleting takes this bot's webhook alone.
  lemma {:induction false} DeleteWebhookTakes(t: Tables, bot: string, drop: bool)
    ensures var r := WebhookDeleted(t, bot, drop);
            && DroppedIf(t.rows, r.rows, bot, drop) && r.nextID == t.nextID && r.cursor == t.cursor
            && r.webhooks.Keys == t.webhooks.Keys - {bot}
            && forall other :: other in t.webhooks && other != bot ==> r.webhooks[other] == t.webhooks[other]
  {
    DropPendingIs(t, bot, drop);
  }

  ghost predicate NormalHooks(trim: string -> string, t: Tables) {
    forall bot {:trigger bot in t.webhooks} :: bot in t.webhooks ==>
      ConfigOf(t.webhooks[bot]) == Normalised(trim, t.webhooks[bot]) && t.webhooks[bot].botAccountID == bot == trim(bot)
  }

  lemma SaveWebhookNormal(trim: string -> string, t: Tables, w: Webhook, now: Time)
    requires Idempotent(trim) && NormalHooks(trim, t) && SaveWebhook(trim, t, w, now).Ok?
    ensures NormalHooks(trim, SaveWebhook(trim, t, w, now).value)
  {
    UniqueTypesSettled(w.allowed);
    SettledFixed(UniqueTypes(w.allowed));
  }

  // --- runs ---

  lemma {:induction false} SavesKeepHooks(trim: string -> string, t: Tables, entries: seq<QueueEntry>, now: Time)
    requires SaveUpdates(trim, t, entries, now).Ok?
    ensures SaveUpdates(trim, t, entries, now).value.webhooks == t.webhooks
    decreases |entries|
  {
    if entries != [] {
      SavesKeepHooks(trim, t, entries[..|entries| - 1], now);
    }
  }

  ghost predicate TouchesHooks(a: Action) {
    a.Deliver? || a.SetHook? || a.DeleteHook?
  }

  lemma OthersKeepHooks(s: State, a: Action)
    requires Enabled(s, a) && !TouchesHooks(a)
    ensures Step(s, a).tables.webhooks == s.tables.webhooks
  {
    if a.Process? {
      ProcessKeepsHooks(s, a.w, a.now, a.commit, a.burnt);
    }
  }

  lemma ProcessKeepsHooks(s: State, w: World, now: Time, commit: bool, burnt: nat)
    requires s.round != []
    ensures StepProcess(s, w, now, commit, burnt).tables.webhooks == s.tables.webhooks
  {
    if FannedOut(s.tables, w, s.round[0], now).Ok? {
      SavesKeepHooks(w.trim, s.tables, Build(w, s.round[0], now).value, now);
    }
  }

  ghost predicate UsesTrim(trim: string -> string, a: Action) {
    (a.Deliver? ==> a.trim == trim) && (a.SetHook? ==> a.trim == trim)
  }

  lemma StepKeepsNormal(trim: string -> string, s: State, a: Action)
    requires Idempotent(trim) && NormalHooks(trim, s.tables) && UsesTrim(trim, a) && Enabled(s, a)
    ensures NormalHooks(trim, Step(s, a).tables)
  {
    if a.Deliver? {
      DeliverKeepsNormal(trim, s, a.hook, a.e, a.answer, a.settings, a.now, a.commit);
    } else if a.SetHook? {
      SetHookKeepsNormal(trim, s, a.bot, a.params, a.now, a.commit);
    } else if !TouchesHooks(a) {
      OthersKeepHooks(s, a);
    }
  }

  lemma DeliverKeepsNormal(trim: string -> string, s: State, hook: Webhook, e: QueueEntry, answer: Answer,
                           settings: RetrySettings, now: Time, commit: bool)
    requires Idempotent(trim) && NormalHooks(trim, s.tables)
    ensures NormalHooks(trim, StepDeliver(s, trim, hook, e, answer, settings, now, commit).tables)
  {
    var done := AfterAnswer(trim, s.tables, hook, e, answer, settings, now);
    if done.Ok? {
      match answer {
        case Success =>
          SaveWebhookNormal(trim, Delete(s.tables, Exactly(hook.botAccountID, e.updateID)),
                            hook.(lastErrorMessage := "", lastErrorAt := 0, lastSuccessAt := now, updatedAt := now), now);
        case Failure(error) =>
          var p := Retry(hook.botAccountID, e.updateID, now, NextAttempt(settings, e, now), error);
          SaveWebhookNormal(trim, s.tables.(rows := Retried(s.tables.rows, p)),
                            hook.(lastErrorMessage := error, lastErrorAt := now, updatedAt := now), now);
      }
    }
  }

  lemma SetHookKeepsNormal(trim: string -> string, s: State, bot: string, p: WebhookParams, now: Time, commit: bool)
    requires Idempotent(trim) && NormalHooks(trim, s.tables)
    ensures NormalHooks(trim, StepSetHook(s, trim, bot, p, now, commit).tables)
  {
    if WebhookSet(trim, s.tables, bot, WebhookOf(bot, p, now), p.dropPending, now).Ok? {
      SaveWebhookNormal(trim, DropPending(s.tables, bot, p.dropPending), WebhookOf(bot, p, now), now);
    }
  }

  // The rows a delivery round has read are in normal form too.
  ghost predicate NormalRead(trim: string -> string, hooks: map<string, Webhook>) {
    forall bot {:trigger bot in hooks} :: bot in hooks ==>
      ConfigOf(hooks[bot]) == Normalised(trim, hooks[bot]) && hooks[bot].botAccountID == bot == trim(bot)
  }

  lemma StepKeepsRead(trim: string -> string, s: State, a: Action)
    requires NormalHooks(trim, s.tables) && NormalRead(trim, s.hooks) && Enabled(s, a)
    ensures NormalRead(trim, Step(s, a).hooks)
    ensures Step(s, a).hooks == if a.ReadHooks? then s.tables.webhooks else if a.Stop? then map[] else s.hooks
  {
    StepReads(s, a);
  }

  lemma StepReads(s: State, a: Action)
    requires Enabled(s, a)
    ensures Step(s, a).hooks == if a.ReadHooks? then s.tables.webhooks else if a.Stop? then map[] else s.hooks
  {
  }

  // In every run from empty tables all webhook rows, stored and read, are in normal form.
  lemma {:induction false} RunKeepsNormal(trim: string -> string, s: State, actions: seq<Action>, end: State)
    requires Idempotent(trim) && NormalHooks(trim, s.tables) && NormalRead(trim, s.hooks) && Run(s, actions, end)
    requires forall i :: 0 <= i < |actions| ==> UsesTrim(trim, actions[i])
    ensures NormalHooks(trim, end.tables) && NormalRead(trim, end.hooks)
    decreases |actions|
  {
    if actions != [] {
      assert UsesTrim(trim, actions[0]);
      StepKeepsNormal(trim, s, actions[0]);
      StepKeepsRead(trim, s, actions[0]);
      RunKeepsNormal(trim, Step(s, actions[0]), actions[1..], end);
    }
  }

  // A committed delivery keeps the bot's configuration exactly when it is still the one the
  // round has read; otherwise it undoes the change.
  lemma DeliverKeepsIff(trim: string -> string, s: State, a: Action)
    requires NormalRead(trim, s.hooks) && Enabled(s, a) && a.Deliver? && a.trim == trim && a.commit
    requires AfterAnswer(trim, s.tables, a.hook, a.e, a.answer, a.settings, a.now).Ok?
    ensures var bot := a.hook.botAccountID;
            && bot in s.hooks
            && Stored(Step(s, a).tables, bot) == Some(ConfigOf(s.hooks[bot]))
            && (Stored(Step(s, a).tables, bot) == Stored(s.tables, bot)
                <==> Stored(s.tables, bot) == Some(ConfigOf(s.hooks[bot])))
  {
    DeliveryWritesBack(trim, s.tables, a.hook, a.e, a.answer, a.settings, a.now, trim(a.hook.botAccountID) + "x");
  }

  // No committed change of the bot's webhook.
  ghost predicate Leaves(trim: string -> string, bot: string, a: Action) {
    && UsesTrim(trim, a)
    && (a.SetHook? && trim(a.bot) == bot ==> !a.commit || a.params.url == "")
    && (a.DeleteHook? && a.bot == bot ==> !a.commit)
  }

  // The stored configuration is this one, and so is the one the round has read, if any.
  ghost predicate Agrees(trim: string -> string, bot: string, config: Config, s: State) {
    && NormalHooks(trim, s.tables) && NormalRead(trim, s.hooks)
    && Stored(s.tables, bot) == Some(config)
    && (bot in s.hooks ==> ConfigOf(s.hooks[bot]) == config)
  }

  lemma DeliverLeavesConfig(trim: string -> string, s: State, bot: string, config: Config, a: Action)
    requires Agrees(trim, bot, config, s) && Enabled(s, a) && a.Deliver? && a.trim == trim
    ensures Stored(Step(s, a).tables, bot) == Some(config)
  {
    if AfterAnswer(trim, s.tables, a.hook, a.e, a.answer, a.settings, a.now).Ok? {
      var written := trim(a.hook.botAccountID);
      DeliveryWritesBack(trim, s.tables, a.hook, a.e, a.answer, a.settings, a.now, if written == bot then bot + "x" else bot);
    }
  }

  lemma {:induction false} StepAgrees(trim: string -> string, s: State, bot: string, config: Config, a: Action)
    requires Idempotent(trim) && Agrees(trim, bot, config, s) && Enabled(s, a) && Leaves(trim, bot, a)
    ensures Agrees(trim, bot, config, Step(s, a))
  {
    StepKeepsNormal(trim, s, a);
    StepKeepsRead(trim, s, a);
    StepKeepsStored(trim, s, bot, config, a);
  }

  lemma {:induction false} StepKeepsStored(trim: string -> string, s: State, bot: string, config: Config, a: Action)
    requires Agrees(trim, bot, config, s) && Enabled(s, a) && Leaves(trim, bot, a)
    ensures Stored(Step(s, a).tables, bot) == Some(config)
  {
    if a.Deliver? {
      DeliverLeavesConfig(trim, s, bot, config, a);
    } else if !TouchesHooks(a) {
      OthersKeepHooks(s, a);
    }
  }

  lemma {:induction false} RunAgrees(trim: string -> string, s: State, bot: string, config: Config, actions: seq<Action>,
                                     end: State)
    requires Idempotent(trim) && Agrees(trim, bot, config, s) && Run(s, actions, end)
    requires forall i :: 0 <= i < |actions| ==> Leaves(trim, bot, actions[i])
    ensures Agrees(trim, bot, config, end)
    decreases |actions|
  {
    if actions != [] {
      assert Leaves(trim, bot, actions[0]);
      StepAgrees(trim, s, bot, config, actions[0]);
      RunAgrees(trim, Step(s, actions[0]), bot, config, actions[1..], end);
    }
  }

  // From the moment a round reads the webhooks, through any deliveries of it and of later rounds:
  // with no committed SetWebhook or DeleteWebhook of the bot its configuration is kept.
  lemma RoundKeepsConfig(trim: string -> string, s: State, bot: string, config: Config, actions: seq<Action>, end: State)
    requires Idempotent(trim) && NormalHooks(trim, s.tables) && Stored(s.tables, bot) == Some(config)
    requires Run(Step(s, ReadHooks), actions, end)
    requires forall i :: 0 <= i < |actions| ==> Leaves(trim, bot, actions[i])
    ensures Stored(end.tables, bot) == Some(config)
  {
    RunAgrees(trim, Step(s, ReadHooks), bot, config, actions, end);
  }
}
