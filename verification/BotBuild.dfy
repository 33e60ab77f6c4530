// Which bots an event reaches, with what, and when building fails, said in the fields of the
// event and of the stores alone.
module BotBuild {
  import opened Outcomes
  import opened BotUpdates

  // --- what is looked up ---

  // The conversation is known, the event is one of the three, its author is a known account and no bot.
  ghost predicate Considered(w: World, event: Event) {
    && event.conversationID in w.conversations
    && (event.eventType == MessageCreated || event.eventType == MessageEdited || event.eventType == MembersChanged)
    && event.actorAccountID in w.accounts && !w.accounts[event.actorAccountID].isBot
  }

  function ConversationOf(w: World, event: Event): Conversation
    requires event.conversationID in w.conversations
  {
    w.conversations[event.conversationID]
  }

  // The message an event names; one that names none stands for an empty message.
  function MessageOf(w: World, event: Event): Option<Message>
    requires event.conversationID in w.conversations
  {
    if event.messageID == "" then Some(Message("", "", "", [], "", map[], false, 0))
    else w.message(ConversationOf(w, event).id, event.messageID, event.actorAccountID)
  }

  // A message event needs its message.
  ghost predicate MessageFound(w: World, event: Event)
    requires event.conversationID in w.conversations
  {
    event.eventType == MembersChanged || MessageOf(w, event).Some?
  }

  // The message routing and rendering start from.
  function Subject(w: World, event: Event): Message
    requires event.conversationID in w.conversations
  {
    match MessageOf(w, event)
    case None => Message("", "", "", [], "", map[], false, 0)
    case Some(m) => m
  }

  // --- who is told ---

  // The rule of the chat: everybody in direct chats and channels, in a group those who are
  // mentioned or replied to, and all of them on a command.
  ghost predicate ChatReaches(w: World, event: Event, bot: string)
    requires event.conversationID in w.conversations
  {
    var kind, m := ConversationOf(w, event).kind, Subject(w, event);
    || kind == Direct
    || kind == Channel
    || (kind == Group && (bot in m.mentions || w.trim(m.replyToSender) == bot || "/" <= w.trim(w.plainText(m))))
  }

  function TargetID(w: World, event: Event): string {
    w.trim(Read(event.metadata, "target_account_id"))
  }

  // The membership rule: the target, a known member, has been added or removed or got another
  // role; it is told itself, and so are owner and admin bots.
  ghost predicate MembershipReaches(w: World, event: Event, members: seq<Member>, m: Member) {
    var target, change := TargetID(w, event), w.trim(Read(event.metadata, "change"));
    && target != "" && target in w.accounts
    && (exists k :: 0 <= k < |members| && members[k].accountID == target)
    && (target == m.accountID || m.role == "owner" || m.role == "admin")
    && (change == "added" || change == "removed"
        || (change == "role_updated" && w.trim(Read(event.metadata, "previous_role")) != ""))
  }

  // An active bot, present and not banned, not the author, that the rule reaches.
  ghost predicate IsTold(w: World, event: Event, members: seq<Member>, m: Member)
    requires event.conversationID in w.conversations
  {
    && m.accountID in w.accounts && w.accounts[m.accountID].isBot && w.accounts[m.accountID].active
    && m.leftAt == 0 && !m.banned && m.accountID != event.actorAccountID
    && (if event.eventType == MembersChanged then MembershipReaches(w, event, members, m)
        else ChatReaches(w, event, m.accountID))
  }

  ghost function ToldBots(w: World, event: Event, all: seq<Member>, members: seq<Member>): seq<string>
    requires event.conversationID in w.conversations
    decreases |members|
  {
    if members == [] then [] else
    var front, last := ToldBots(w, event, all, members[..|members| - 1]), members[|members| - 1];
    if IsTold(w, event, all, last) then front + [last.accountID] else front
  }

  // --- with what ---

  // The type of the entry for a bot.
  function TypeFor(w: World, event: Event, bot: string): UpdateType
    requires event.conversationID in w.conversations
  {
    if event.eventType == MembersChanged then (if TargetID(w, event) == bot then MyChatMember else ChatMember)
    else if event.eventType == MessageEdited then
      (if ConversationOf(w, event).kind == Channel then EditedChannelPost else EditedMessage)
    else (if ConversationOf(w, event).kind == Channel then ChannelPost else NewMessage)
  }

  // The message as the event recorded it.
  function Recorded(w: World, event: Event): Message
    requires event.conversationID in w.conversations
  {
    var m, flag := Subject(w, event), w.trim(Read(event.metadata, "disable_link_previews"));
    if event.messageID == "" || event.eventType == MembersChanged then m else
    Message(m.id, m.senderAccountID, m.replyToSender, m.mentions, event.payload, w.clone(event.metadata),
            if flag != "" && w.parseBool(flag).Some? then w.parseBool(flag).value else m.disableLinkPreviews,
            if event.eventType == MessageEdited then event.createdAt else 0)
  }

  // The rendering an entry carries.
  function Rendering(w: World, event: Event, members: seq<Member>, bot: string): Option<Json>
    requires event.conversationID in w.conversations
  {
    if event.eventType == MembersChanged then w.chat(bot, ConversationOf(w, event), members)
    else w.view(bot, ConversationOf(w, event), members, Recorded(w, event))
  }

  function KeyFor(w: World, event: Event, bot: string): string {
    if event.eventType != MembersChanged then event.eventID
    else if TargetID(w, event) == bot then event.eventID + ":" + TargetID(w, event) + ":" + "my_chat_member"
    else event.eventID + ":" + TargetID(w, event) + ":" + "chat_member"
  }

  // The payload of the type, and no other, carries the rendering.
  ghost predicate Carries(u: Update, t: UpdateType, json: Json) {
    match t
    case NewMessage => u == NO_UPDATE.(message := Some(json))
    case EditedMessage => u == NO_UPDATE.(editedMessage := Some(json))
    case ChannelPost => u == NO_UPDATE.(channelPost := Some(json))
    case EditedChannelPost => u == NO_UPDATE.(editedChannelPost := Some(json))
    case ChatMember => u.chatMember.Some? && u == NO_UPDATE.(chatMember := u.chatMember) && u.chatMember.value.chat == json
    case MyChatMember =>
      u.myChatMember.Some? && u == NO_UPDATE.(myChatMember := u.myChatMember) && u.myChatMember.value.chat == json
    case _ => false
  }

  // The entry for one bot.
  ghost predicate EntryRight(w: World, event: Event, members: seq<Member>, now: Time, e: QueueEntry)
    requires event.conversationID in w.conversations
  {
    var json := Rendering(w, event, members, e.botAccountID);
    && json.Some? && e.updateType == TypeFor(w, event, e.botAccountID) && Carries(e.payload, e.updateType, json.value)
    && e.eventID == w.trim(KeyFor(w, event, e.botAccountID))
    && e.attempts == 0 && e.nextAttemptAt == now && e.createdAt == (if event.createdAt == 0 then now else event.createdAt)
  }

  // The rendering fails, or a name is blank.
  ghost predicate Fails(w: World, event: Event, members: seq<Member>, m: Member)
    requires event.conversationID in w.conversations
  {
    || Rendering(w, event, members, m.accountID).None?
    || m.accountID == "" || w.trim(KeyFor(w, event, m.accountID)) == ""
  }

  // --- the build meets this ---

  lemma {:induction false} PreparedIff(w: World, event: Event, now: Time)
    ensures Prepare(w, event, now).Err? <==>
              event.conversationID != ""
              && (event.conversationID !in w.conversations
                  || (Considered(w, event) && ConversationOf(w, event).id !in w.members))
    ensures Prepare(w, event, now).Ok? && Prepare(w, event, now).value.Some? <==>
              event.conversationID != "" && Considered(w, event) && ConversationOf(w, event).id in w.members
              && MessageFound(w, event)
    ensures Prepare(w, event, now).Ok? && Prepare(w, event, now).value.Some? ==>
              var job := Prepare(w, event, now).value.value;
              var conv := ConversationOf(w, event);
              && job.w == w && job.event == event && job.conv == conv && job.members == w.members[conv.id]
              && job.actor == w.accounts[event.actorAccountID] && job.message == Subject(w, event) && job.now == now
              && job.updateType == if event.eventType == MembersChanged then ChatMember
                                   else TypeFor(w, event, "")
  {
  }

  // A job as the look-ups make it.
  ghost predicate Prepared(job: Job) {
    && job.event.conversationID in job.w.conversations
    && Considered(job.w, job.event)
    && job.conv == ConversationOf(job.w, job.event) && job.message == Subject(job.w, job.event)
    && job.updateType == if job.event.eventType == MembersChanged then ChatMember else TypeFor(job.w, job.event, "")
  }

  lemma {:induction false} PreparedType(job: Job)
    requires Prepared(job)
    ensures JobType(job.updateType) && (job.updateType == ChatMember <==> job.event.eventType == MembersChanged)
    ensures job.updateType != ChatMember ==> forall bot :: TypeFor(job.w, job.event, bot) == job.updateType
  {
  }

  lemma {:induction false} ConcernsIff(job: Job, m: Member)
    requires Prepared(job)
    ensures Concerns(job, m) <==> MembershipReaches(job.w, job.event, job.members, m)
  {
  }

  lemma {:induction false} RouteIff(job: Job, bot: string)
    requires Prepared(job)
    ensures ShouldRoute(job.w, job.conv, job.message, bot) <==> ChatReaches(job.w, job.event, bot)
  {
  }

  lemma {:induction false} ReceivesIff(job: Job, m: Member)
    requires Prepared(job)
    ensures Receives(job, m) <==> IsTold(job.w, job.event, job.members, m)
  {
    PreparedType(job);
    ConcernsIff(job, m);
    RouteIff(job, m.accountID);
  }

  lemma {:induction false} ReceiversAreTold(job: Job, members: seq<Member>)
    requires Prepared(job)
    ensures Receivers(job, members) == ToldBots(job.w, job.event, job.members, members)
    decreases |members|
  {
    if members != [] {
      ReceiversAreTold(job, members[..|members| - 1]);
      ReceivesIff(job, members[|members| - 1]);
    }
  }

  lemma {:induction false} RecordedIs(job: Job)
    requires Prepared(job) && job.event.eventType != MembersChanged
    ensures MessageAtEvent(job.w, job.message, job.event) == Recorded(job.w, job.event)
  {
  }

  // One turn of the member loop: nothing for a member that is not told; else an error or its entry.
  lemma {:induction false} MessageTurn(job: Job, m: Member)
    requires GoodWorld(job.w) && job.now > 0 && Prepared(job) && job.event.eventType != MembersChanged
    requires IsTold(job.w, job.event, job.members, m)
    ensures Entry(job, m).Err? <==> Fails(job.w, job.event, job.members, m)
    ensures Entry(job, m).Ok? ==> Entry(job, m).value.Some? && Entry(job, m).value.value.botAccountID == m.accountID
                                  && EntryRight(job.w, job.event, job.members, job.now, Entry(job, m).value.value)
  {
    PreparedType(job);
    RouteIff(job, m.accountID);
    RecordedIs(job);
  }

  lemma {:induction false} MemberTurn(job: Job, m: Member)
    requires GoodWorld(job.w) && job.now > 0 && Prepared(job) && job.event.eventType == MembersChanged
    requires IsTold(job.w, job.event, job.members, m)
    ensures Entry(job, m).Err? <==> Fails(job.w, job.event, job.members, m)
    ensures Entry(job, m).Ok? ==> Entry(job, m).value.Some? && Entry(job, m).value.value.botAccountID == m.accountID
                                  && EntryRight(job.w, job.event, job.members, job.now, Entry(job, m).value.value)
  {
    PreparedType(job);
    ConcernsIff(job, m);
    ObservedIff(job, m);
  }

  lemma {:induction false} OtherTurn(job: Job, m: Member)
    requires GoodWorld(job.w) && Prepared(job) && !IsTold(job.w, job.event, job.members, m)
    ensures Entry(job, m) == Ok(None)
  {
    PreparedType(job);
    if job.event.eventType == MembersChanged {
      ConcernsIff(job, m);
      ObservedIff(job, m);
    } else {
      RouteIff(job, m.accountID);
    }
  }

  // What one turn comes to, for any member.
  lemma {:induction false} TurnIsRight(job: Job, m: Member)
    requires GoodWorld(job.w) && job.now > 0 && Prepared(job)
    ensures var told := IsTold(job.w, job.event, job.members, m);
            && (Entry(job, m).Err? <==> told && Fails(job.w, job.event, job.members, m))
            && (Entry(job, m).Ok? ==>
                  (Entry(job, m).value.Some? <==> told)
                  && (told ==> Entry(job, m).value.value.botAccountID == m.accountID
                               && EntryRight(job.w, job.event, job.members, job.now, Entry(job, m).value.value)))
  {
    if !IsTold(job.w, job.event, job.members, m) {
      OtherTurn(job, m);
    } else if job.event.eventType == MembersChanged {
      MemberTurn(job, m);
    } else {
      MessageTurn(job, m);
    }
  }

  ghost predicate SomeFails(w: World, event: Event, all: seq<Member>, members: seq<Member>)
    requires event.conversationID in w.conversations
  {
    exists k :: 0 <= k < |members| && IsTold(w, event, all, members[k]) && Fails(w, event, all, members[k])
  }

  lemma {:induction false} SomeFailsSnoc(w: World, event: Event, all: seq<Member>, members: seq<Member>)
    requires event.conversationID in w.conversations && members != []
    ensures var front, last := members[..|members| - 1], members[|members| - 1];
            SomeFails(w, event, all, members)
            <==> SomeFails(w, event, all, front) || (IsTold(w, event, all, last) && Fails(w, event, all, last))
  {
    var front := members[..|members| - 1];
    if SomeFails(w, event, all, front) {
      var k :| 0 <= k < |front| && IsTold(w, event, all, front[k]) && Fails(w, event, all, front[k]);
      assert members[k] == front[k];
    }
    if k :| 0 <= k < |members| && IsTold(w, event, all, members[k]) && Fails(w, event, all, members[k]) {
      if k < |front| {
        assert front[k] == members[k];
      }
    }
  }

  ghost predicate AllRight(w: World, event: Event, all: seq<Member>, now: Time, entries: seq<QueueEntry>)
    requires event.conversationID in w.conversations
  {
    forall i :: 0 <= i < |entries| ==> EntryRight(w, event, all, now, entries[i])
  }

  lemma {:induction false} GatherIsRight(job: Job, members: seq<Member>)
    requires GoodWorld(job.w) && job.now > 0 && Prepared(job)
    ensures Gather(job, members).Err? <==> SomeFails(job.w, job.event, job.members, members)
    ensures Gather(job, members).Ok? ==>
              && Bots(Gather(job, members).value) == ToldBots(job.w, job.event, job.members, members)
              && AllRight(job.w, job.event, job.members, job.now, Gather(job, members).value)
    decreases |members|
  {
    if members != [] {
      var front, last := members[..|members| - 1], members[|members| - 1];
      GatherIsRight(job, front);
      TurnIsRight(job, last);
      SomeFailsSnoc(job.w, job.event, job.members, members);
      if Gather(job, front).Ok? && Entry(job, last).Ok? && Entry(job, last).value.Some? {
        BotsSnoc(Gather(job, front).value, Entry(job, last).value.value);
      }
    }
  }

  // Building an event, from the event and the stores alone: it fails exactly when the conversation
  // or its members cannot be loaded where they are needed, or an entry cannot be made for a bot that
  // is to be told. Otherwise the entries go to exactly the bots to be told, in member order, each
  // with the type, key, times and rendering of the event; and there are none when the author is
  // unknown or a bot, the event is of another type, or its message is not found.
  lemma {:induction false} BuildIsRight(w: World, event: Event, now: Time)
    requires GoodWorld(w) && now > 0
    ensures Build(w, event, now).Err? <==>
              event.conversationID != ""
              && (event.conversationID !in w.conversations
                  || (Considered(w, event)
                      && (ConversationOf(w, event).id !in w.members
                          || (MessageFound(w, event)
                              && var members := w.members[ConversationOf(w, event).id]; SomeFails(w, event, members, members)))))
    ensures Build(w, event, now).Ok? ==>
              var entries := Build(w, event, now).value;
              if event.conversationID != "" && Considered(w, event) && MessageFound(w, event)
              then ConversationOf(w, event).id in w.members
                   && var members := w.members[ConversationOf(w, event).id];
                   Bots(entries) == ToldBots(w, event, members, members) && AllRight(w, event, members, now, entries)
              else entries == []
  {
    PreparedIff(w, event, now);
    var prepared := Prepare(w, event, now);
    if prepared.Ok? && prepared.value.Some? {
      var job := prepared.value.value;
      GatherIsRight(job, job.members);
    }
  }

  // --- what a membership update says ---

  function ByRole(role: string): MemberStatus {
    if role == "owner" then Creator else if role == "admin" then Administrator else Plain
  }

  // A member's standing: banned before left before muted before role.
  function Standing(banned: bool, left: bool, muted: bool, role: string): MemberStatus {
    if banned then Kicked else if left then Left else if muted then Restricted else ByRole(role)
  }

  // The first member with the target's account.
  ghost predicate IsTarget(w: World, event: Event, members: seq<Member>, k: nat) {
    && k < |members| && members[k].accountID == TargetID(w, event)
    && forall j :: 0 <= j < k ==> members[j].accountID != TargetID(w, event)
  }

  // From the author, at the event's time, about the target: how it stands now, and how it stood: not
  // in the chat before it was added, in it before it was removed, with the other role before it changed.
  ghost predicate ChangeRight(w: World, event: Event, members: seq<Member>, c: MemberChange) {
    var change := w.trim(Read(event.metadata, "change"));
    && event.actorAccountID in w.accounts && c.from == w.accounts[event.actorAccountID]
    && c.date == event.createdAt
    && TargetID(w, event) in w.accounts
    && c.before.user == w.accounts[TargetID(w, event)] == c.after.user
    && exists k: nat :: IsTarget(w, event, members, k)
         && var t := members[k];
         && c.after.status == Standing(t.banned, t.leftAt != 0, t.muted, t.role)
         && (change == "added" ==> c.before.status == Standing(false, event.createdAt != 0, false, t.role))
         && (change == "removed" ==> c.before.status == Standing(t.banned, false, t.muted, t.role))
         && (change == "role_updated" ==>
               c.before.status
               == Standing(t.banned, t.leftAt != 0, t.muted, w.trim(Read(event.metadata, "previous_role"))))
  }

  lemma {:induction false} FindsTarget(members: seq<Member>, accountID: string) returns (k: nat)
    requires FindMember(members, accountID).Some?
    ensures k < |members| && members[k] == FindMember(members, accountID).value && members[k].accountID == accountID
    ensures forall j :: 0 <= j < k ==> members[j].accountID != accountID
    decreases |members|
  {
    if members[0].accountID == accountID {
      k := 0;
    } else {
      k := FindsTarget(members[1..], accountID);
      forall j | 0 <= j < k + 1
        ensures members[j].accountID != accountID
      {
        if j > 0 {
          assert members[1..][j - 1] == members[j];
        }
      }
      k := k + 1;
    }
  }

  // The change an entry carries.
  function ChangeIn(e: QueueEntry): Option<MemberChange> {
    if e.payload.chatMember.Some? then e.payload.chatMember else e.payload.myChatMember
  }

  lemma {:induction false} StandingNow(m: Member)
    ensures StatusOf(m, m.muted) == Standing(m.banned, m.leftAt != 0, m.muted, m.role)
  {
  }

  lemma {:induction false} StandingBefore(w: World, event: Event, t: Member)
    requires !ChangeOf(w, event).NoChange?
    ensures var change, before := w.trim(Read(event.metadata, "change")), OldStatus(event, ChangeOf(w, event), t);
            && (change == "added" ==> before == Standing(false, event.createdAt != 0, false, t.role))
            && (change == "removed" ==> before == Standing(t.banned, false, t.muted, t.role))
            && (change == "role_updated" ==>
                  before == Standing(t.banned, t.leftAt != 0, t.muted, w.trim(Read(event.metadata, "previous_role"))))
  {
  }

  lemma {:induction false} MemberEntryChange(job: Job, m: Member, bot: string)
    requires MemberEntry(job, m, bot).Ok? && MemberEntry(job, m, bot).value.Some?
    ensures Observation(job, m, bot).Some?
    ensures var o, change := Observation(job, m, bot).value, ChangeIn(MemberEntry(job, m, bot).value.value);
            change.Some?
            && change.value == MemberChange(change.value.chat, job.actor, job.event.createdAt, o.before, o.after)
  {
  }

  lemma {:induction false} ObservedStates(job: Job, m: Member, bot: string)
    requires Observation(job, m, bot).Some?
    ensures Target(job) in job.w.accounts && FindMember(job.members, Target(job)).Some?
    ensures !ChangeOf(job.w, job.event).NoChange?
    ensures var o, account := Observation(job, m, bot).value, job.w.accounts[Target(job)];
            var t := FindMember(job.members, Target(job)).value;
            && o.before == ChatMemberState(account, OldStatus(job.event, ChangeOf(job.w, job.event), t))
            && o.after == ChatMemberState(account, StatusOf(t, t.muted))
  {
  }

  lemma {:induction false} MembershipContents(job: Job, m: Member)
    requires Prepared(job) && job.event.eventType == MembersChanged
    requires job.actor == job.w.accounts[job.event.actorAccountID]
    requires Entry(job, m).Ok? && Entry(job, m).value.Some?
    ensures ChangeIn(Entry(job, m).value.value).Some?
    ensures ChangeRight(job.w, job.event, job.members, ChangeIn(Entry(job, m).value.value).value)
  {
    PreparedType(job);
    var bot := BotAccount(job, m).value.id;
    assert Entry(job, m) == MemberEntry(job, m, bot);
    MemberEntryChange(job, m, bot);
    ObservedStates(job, m, bot);
    var k := FindsTarget(job.members, Target(job));
    StandingNow(job.members[k]);
    StandingBefore(job.w, job.event, job.members[k]);
    assert IsTarget(job.w, job.event, job.members, k);
  }

  // Every membership entry that is built says so.
  lemma {:induction false} BuiltChangesAreRight(w: World, event: Event, now: Time, i: nat)
    requires GoodWorld(w) && event.eventType == MembersChanged
    requires Build(w, event, now).Ok? && i < |Build(w, event, now).value|
    ensures event.conversationID in w.conversations && ConversationOf(w, event).id in w.members
    ensures ChangeIn(Build(w, event, now).value[i]).Some?
    ensures ChangeRight(w, event, w.members[ConversationOf(w, event).id], ChangeIn(Build(w, event, now).value[i]).value)
  {
    PreparedIff(w, event, now);
    var job := Prepare(w, event, now).value.value;
    var k := EntryOrigin(job, job.members, i);
    MembershipContents(job, job.members[k]);
  }
}
