// The bot worker's update building: one conversation event becomes at most one queue
// entry for each bot in the conversation.
module BotUpdates {
  import opened Outcomes
  import opened Text

  // Instants; 0 is the zero time.
  type Time = int
  // The Telegram-shaped renderings of chats, messages and queries.
  type Json = string
  type Meta = map<string, string>

  datatype UpdateType =
    | Unspecified | NewMessage | EditedMessage | ChannelPost | EditedChannelPost
    | CallbackQuery | InlineQuery | ChosenInlineResult | ChatMember | MyChatMember

  datatype EventType = MessageCreated | MessageEdited | MembersChanged | OtherEvent
  datatype Kind = Direct | Group | Channel | OtherKind

  datatype Account = Account(id: string, isBot: bool, active: bool)
  datatype Member = Member(accountID: string, role: string, muted: bool, banned: bool, leftAt: Time)
  datatype Conversation = Conversation(id: string, kind: Kind)
  datatype Message = Message(
    id: string, senderAccountID: string, replyToSender: string, mentions: seq<string>,
    payload: string, metadata: Meta, disableLinkPreviews: bool, editedAt: Time)
  datatype Event = Event(
    eventID: string, eventType: EventType, conversationID: string, actorAccountID: string, messageID: string,
    sequence: nat, payload: string, metadata: Meta, createdAt: Time)

  const NO_MESSAGE := Message("", "", "", [], "", map[], false, 0)

  datatype MemberStatus = Creator | Administrator | Plain | Restricted | Left | Kicked
  datatype ChatMemberState = ChatMemberState(user: Account, status: MemberStatus)
  datatype MemberChange = MemberChange(
    chat: Json, from: Account, date: Time, before: ChatMemberState, after: ChatMemberState)

  datatype Update = Update(
    updateID: nat,
    message: Option<Json>, editedMessage: Option<Json>, channelPost: Option<Json>, editedChannelPost: Option<Json>,
    callbackQuery: Option<Json>, inlineQuery: Option<Json>, chosenInlineResult: Option<Json>,
    chatMember: Option<MemberChange>, myChatMember: Option<MemberChange>)

  const NO_UPDATE := Update(0, None, None, None, None, None, None, None, None, None)

  datatype QueueEntry = QueueEntry(
    updateID: nat, botAccountID: string, eventID: string, updateType: UpdateType, payload: Update,
    attempts: int, nextAttemptAt: Time, lastError: string, createdAt: Time, updatedAt: Time)

  // Everything an event is looked up against, as it stands when the event is processed.
  // Rendering, plain-text extraction and the standard library enter as functions.
  datatype World = World(
    conversations: map<string, Conversation>,
    members: map<string, seq<Member>>,
    accounts: map<string, Account>,
    message: (string, string, string) -> Option<Message>,
    chat: (string, Conversation, seq<Member>) -> Option<Json>,
    view: (string, Conversation, seq<Member>, Message) -> Option<Json>,
    plainText: Message -> string,
    clone: Meta -> Meta,
    parseBool: string -> Option<bool>,
    trim: string -> string)

  function Read(m: Meta, key: string): string {
    if key in m then m[key] else ""
  }

  // Whether the payload has the variant of this type set.
  predicate Has(u: Update, t: UpdateType) {
    match t
    case Unspecified => false
    case NewMessage => u.message.Some?
    case EditedMessage => u.editedMessage.Some?
    case ChannelPost => u.channelPost.Some?
    case EditedChannelPost => u.editedChannelPost.Some?
    case CallbackQuery => u.callbackQuery.Some?
    case InlineQuery => u.inlineQuery.Some?
    case ChosenInlineResult => u.chosenInlineResult.Some?
    case ChatMember => u.chatMember.Some?
    case MyChatMember => u.myChatMember.Some?
  }

  // Exactly one payload variant is set, the one the update type names.
  ghost predicate Shaped(e: QueueEntry) {
    e.updateType != Unspecified && forall t :: Has(e.payload, t) <==> t == e.updateType
  }

  // QueueEntry.normalize.
  function NormalizeEntry(trim: string -> string, e: QueueEntry, now: Time): Result<QueueEntry> {
    var bot, eventID := trim(e.botAccountID), trim(e.eventID);
    if bot == "" || eventID == "" || e.updateType == Unspecified then Err else
    var createdAt := if e.createdAt == 0 then now else e.createdAt;
    Ok(e.(
      botAccountID := bot,
      eventID := eventID,
      attempts := if e.attempts < 0 then 0 else e.attempts,
      nextAttemptAt := if e.nextAttemptAt == 0 then now else e.nextAttemptAt,
      createdAt := createdAt,
      updatedAt := if e.updatedAt == 0 then createdAt else e.updatedAt))
  }

  // Entries that normalisation leaves alone.
  predicate Normal(trim: string -> string, e: QueueEntry) {
    && trim(e.botAccountID) == e.botAccountID != ""
    && trim(e.eventID) == e.eventID != ""
    && e.updateType != Unspecified && e.attempts >= 0
    && e.nextAttemptAt != 0 && e.createdAt != 0 && e.updatedAt != 0
  }

  ghost predicate Idempotent(trim: string -> string) {
    forall s {:trigger trim(s)} :: trim(trim(s)) == trim(s)
  }

  // Building normalises an entry and saving normalises it again: the second time changes nothing.
  lemma NormalizeTwice(trim: string -> string, e: QueueEntry, now: Time, later: Time)
    requires Idempotent(trim) && NormalizeEntry(trim, e, now).Ok? && now > 0
    ensures var n := NormalizeEntry(trim, e, now).value;
            Normal(trim, n) && NormalizeEntry(trim, n, later) == Ok(n)
  {
  }

  // --- routing ---

  function UpdateTypeFor(eventType: EventType, conv: Conversation): UpdateType {
    match eventType
    case MessageCreated => if conv.kind == Channel then ChannelPost else NewMessage
    case MessageEdited => if conv.kind == Channel then EditedChannelPost else EditedMessage
    case MembersChanged => ChatMember
    case OtherEvent => Unspecified
  }

  predicate IsCommand(w: World, m: Message) {
    "/" <= w.trim(w.plainText(m))
  }

  predicate ShouldRoute(w: World, conv: Conversation, m: Message, bot: string) {
    match conv.kind
    case Direct => true
    case Channel => true
    case Group => bot in m.mentions || w.trim(m.replyToSender) == bot || IsCommand(w, m)
    case OtherKind => false
  }

  // --- the message as it stood at the event ---

  function ReadBool(w: World, raw: string, fallback: bool): bool {
    match w.parseBool(w.trim(raw))
    case None => fallback
    case Some(b) => if w.trim(raw) == "" then fallback else b
  }

  const PREVIEWS_KEY := "disable_link_previews"

  function MessageAtEvent(w: World, m: Message, event: Event): Message {
    if event.messageID == "" || (event.eventType != MessageCreated && event.eventType != MessageEdited) then m else
    m.(payload := event.payload,
       metadata := w.clone(event.metadata),
       disableLinkPreviews := ReadBool(w, Read(event.metadata, PREVIEWS_KEY), m.disableLinkPreviews),
       editedAt := if event.eventType == MessageEdited then event.createdAt else 0)
  }

  // Two states of one message, apart from what an edit rewrites.
  predicate SameButContent(a: Message, b: Message) {
    a == b.(payload := a.payload, metadata := a.metadata, disableLinkPreviews := a.disableLinkPreviews, editedAt := a.editedAt)
  }

  // An update shows the message as the event recorded it, whatever later edits did to the
  // stored message, provided the event records the preview flag or no edit changed it.
  lemma SnapshotSurvivesEdits(w: World, event: Event, before: Message, after: Message)
    requires event.messageID != "" && (event.eventType == MessageCreated || event.eventType == MessageEdited)
    requires SameButContent(before, after)
    ensures MessageAtEvent(w, before, event) == MessageAtEvent(w, after, event)
            <==> (before.disableLinkPreviews == after.disableLinkPreviews
                  || (w.trim(Read(event.metadata, PREVIEWS_KEY)) != ""
                      && w.parseBool(w.trim(Read(event.metadata, PREVIEWS_KEY))).Some?))
  {
  }

  // --- membership changes ---

  const OWNER := "owner"
  const ADMIN := "admin"
  const TARGET_KEY := "target_account_id"
  const CHANGE_KEY := "change"
  const PREVIOUS_ROLE_KEY := "previous_role"

  function StatusOf(m: Member, restricted: bool): MemberStatus {
    if m.banned then Kicked
    else if m.leftAt != 0 then Left
    else if restricted then Restricted
    else if m.role == OWNER then Creator
    else if m.role == ADMIN then Administrator
    else Plain
  }

  datatype Change = Added | Removed | RoleUpdated(previous: string) | NoChange

  // The switch on the event's change entry.
  function ChangeOf(w: World, event: Event): Change {
    var change := w.trim(Read(event.metadata, CHANGE_KEY));
    if change == "added" then Added
    else if change == "removed" then Removed
    else if change == "role_updated" then
      var previous := w.trim(Read(event.metadata, PREVIOUS_ROLE_KEY));
      if previous == "" then NoChange else RoleUpdated(previous)
    else NoChange
  }

  // The target as it was before the change, and whether it counted as restricted.
  function OldStatus(event: Event, change: Change, target: Member): MemberStatus {
    match change
    case Added => StatusOf(target.(leftAt := event.createdAt, banned := false), false)
    case Removed => StatusOf(target.(leftAt := 0), target.muted)
    case RoleUpdated(previous) => StatusOf(target.(role := previous), target.muted)
    case NoChange => StatusOf(target, target.muted)
  }

  predicate CanObserve(m: Member) {
    m.role == OWNER || m.role == ADMIN
  }

  datatype Observed = Observed(updateType: UpdateType, before: ChatMemberState, after: ChatMemberState)

  // memberUpdateForEvent.
  function MemberUpdate(w: World, event: Event, botMember: Member, bot: string, target: Member, account: Account)
    : Option<Observed>
  {
    var change := ChangeOf(w, event);
    if (target.accountID != bot && !CanObserve(botMember)) || change.NoChange? then None else
    Some(Observed(
      if target.accountID == bot then MyChatMember else ChatMember,
      ChatMemberState(account, OldStatus(event, change, target)),
      ChatMemberState(account, StatusOf(target, target.muted))))
  }

  // What the change says about the target: someone added had left, someone removed had
  // not, and for a change of role the two statuses differ only through the role.
  lemma StatusTransition(event: Event, change: Change, target: Member)
    requires event.createdAt != 0
    ensures change.Added? ==> OldStatus(event, change, target) == Left
    ensures change.Removed? ==> OldStatus(event, change, target) != Left
    ensures change.RoleUpdated? && (target.banned || target.leftAt != 0 || target.muted)
            ==> OldStatus(event, change, target) == StatusOf(target, target.muted)
    ensures change.RoleUpdated? && OldStatus(event, change, target) == Creator ==> change.previous == OWNER
  {
  }

  // memberByAccountID: the first member with this account.
  function FindMember(members: seq<Member>, accountID: string): (r: Option<Member>)
    ensures r.Some? ==> r.value.accountID == accountID && r.value in members
    ensures r.None? ==> forall i :: 0 <= i < |members| ==> members[i].accountID != accountID
  {
    if members == [] then None
    else if members[0].accountID == accountID then Some(members[0])
    else FindMember(members[1..], accountID)
  }

  // --- building ---

  // An event with all that was loaded for it.
  datatype Job = Job(
    w: World, event: Event, conv: Conversation, members: seq<Member>, actor: Account, message: Message,
    updateType: UpdateType, now: Time)

  // The part before the member loop: an error, nothing to do, or a job.
  function Prepare(w: World, event: Event, now: Time): Result<Option<Job>> {
    if event.conversationID == "" then Ok(None) else
    if event.conversationID !in w.conversations then Err else
    var conv := w.conversations[event.conversationID];
    var t := UpdateTypeFor(event.eventType, conv);
    if t == Unspecified || event.actorAccountID !in w.accounts then Ok(None) else
    var actor := w.accounts[event.actorAccountID];
    if actor.isBot then Ok(None) else
    if conv.id !in w.members then Err else
    var message := if event.messageID == "" then Some(NO_MESSAGE) else w.message(conv.id, event.messageID, event.actorAccountID);
    if message.None? && t != ChatMember then Ok(None) else
    Ok(Some(Job(w, event, conv, w.members[conv.id], actor, if message.None? then NO_MESSAGE else message.value, t, now)))
  }

  predicate JobType(t: UpdateType) {
    t == NewMessage || t == EditedMessage || t == ChannelPost || t == EditedChannelPost || t == ChatMember
  }

  // The account of a member that may be told about the event.
  function BotAccount(job: Job, m: Member): Option<Account> {
    if m.accountID == job.event.actorAccountID || m.leftAt != 0 || m.banned then None
    else if m.accountID !in job.w.accounts then None
    else
      var a := job.w.accounts[m.accountID];
      if a.isBot && a.active then Some(a) else None
  }

  function MessagePayload(t: UpdateType, view: Json): Update {
    match t
    case NewMessage => NO_UPDATE.(message := Some(view))
    case EditedMessage => NO_UPDATE.(editedMessage := Some(view))
    case ChannelPost => NO_UPDATE.(channelPost := Some(view))
    case EditedChannelPost => NO_UPDATE.(editedChannelPost := Some(view))
    case _ => NO_UPDATE
  }

  function NewEntry(job: Job, bot: string, eventID: string, t: UpdateType, payload: Update): Result<QueueEntry> {
    NormalizeEntry(job.w.trim,
                   QueueEntry(0, bot, eventID, t, payload, 0, job.now, "", job.event.createdAt, job.event.createdAt), job.now)
  }

  function Lift(r: Result<QueueEntry>): Result<Option<QueueEntry>> {
    match r case Err => Err case Ok(e) => Ok(Some(e))
  }

  function TypeName(t: UpdateType): string {
    if t == MyChatMember then "my_chat_member" else "chat_member"
  }

  function Target(job: Job): string {
    job.w.trim(Read(job.event.metadata, TARGET_KEY))
  }

  // memberUpdateForEvent with its look-ups.
  function Observation(job: Job, m: Member, bot: string): Option<Observed> {
    var target := Target(job);
    var found := FindMember(job.members, target);
    if target == "" || found.None? || target !in job.w.accounts then None
    else MemberUpdate(job.w, job.event, m, bot, found.value, job.w.accounts[target])
  }

  // memberUpdateEntry.
  function MemberEntry(job: Job, m: Member, bot: string): Result<Option<QueueEntry>> {
    match Observation(job, m, bot)
    case None => Ok(None)
    case Some(o) =>
      match job.w.chat(bot, job.conv, job.members)
      case None => Err
      case Some(chat) =>
        var change := MemberChange(chat, job.actor, job.event.createdAt, o.before, o.after);
        var payload := if o.updateType == MyChatMember then NO_UPDATE.(myChatMember := Some(change))
                       else NO_UPDATE.(chatMember := Some(change));
        Lift(NewEntry(job, bot, job.event.eventID + ":" + Target(job) + ":" + TypeName(o.updateType), o.updateType, payload))
  }

  // updatePayload and the entry around it.
  function MessageEntry(job: Job, bot: string): Result<Option<QueueEntry>> {
    if !ShouldRoute(job.w, job.conv, job.message, bot) then Ok(None) else
    match job.w.view(bot, job.conv, job.members, MessageAtEvent(job.w, job.message, job.event))
    case None => Err
    case Some(view) => Lift(NewEntry(job, bot, job.event.eventID, job.updateType, MessagePayload(job.updateType, view)))
  }

  // One turn of the member loop.
  function Entry(job: Job, m: Member): Result<Option<QueueEntry>> {
    match BotAccount(job, m)
    case None => Ok(None)
    case Some(a) => if job.updateType == ChatMember then MemberEntry(job, m, a.id) else MessageEntry(job, a.id)
  }

  // The member loop: entries in member order; the first error ends it.
  function Gather(job: Job, members: seq<Member>): Result<seq<QueueEntry>> {
    if members == [] then Ok([]) else Plus(Gather(job, members[..|members| - 1]), Entry(job, members[|members| - 1]))
  }

  // The entries so far and those of one more turn.
  function Plus(front: Result<seq<QueueEntry>>, entry: Result<Option<QueueEntry>>): Result<seq<QueueEntry>> {
    match front
    case Err => Err
    case Ok(entries) =>
      match entry
      case Err => Err
      case Ok(None) => Ok(entries)
      case Ok(Some(e)) => Ok(entries + [e])
  }

  lemma GatherNext(job: Job, members: seq<Member>, i: nat)
    requires i < |members|
    ensures Gather(job, members[..i + 1]) == Plus(Gather(job, members[..i]), Entry(job, members[i]))
  {
    assert members[..i + 1][..i] == members[..i];
  }

  function Build(w: World, event: Event, now: Time): Result<seq<QueueEntry>> {
    match Prepare(w, event, now)
    case Err => Err
    case Ok(None) => Ok([])
    case Ok(Some(job)) => Gather(job, job.members)
  }

  lemma {:induction false} ErrorEndsGather(job: Job, members: seq<Member>, i: nat)
    requires i < |members| && Entry(job, members[i]).Err?
    ensures Gather(job, members).Err?
    decreases |members|
  {
    if i < |members| - 1 {
      ErrorEndsGather(job, members[..|members| - 1], i);
    }
  }

  method GatherEntries(job: Job) returns (result: Result<seq<QueueEntry>>)
    ensures result == Gather(job, job.members)
  {
    var entries := [];
    for i := 0 to |job.members|
      invariant Gather(job, job.members[..i]) == Ok(entries)
    {
      GatherNext(job, job.members, i);
      var entry := Entry(job, job.members[i]);
      if entry.Err? {
        ErrorEndsGather(job, job.members, i);
        return Err;
      }
      if entry.value.Some? {
        entries := entries + [entry.value.value];
      }
    }
    assert job.members[..|job.members|] == job.members;
    return Ok(entries);
  }

  // buildUpdatesForEvent.
  method BuildUpdatesForEvent(w: World, event: Event, now: Time) returns (result: Result<seq<QueueEntry>>)
    ensures result == Build(w, event, now)
  {
    if event.conversationID == "" {
      return Ok([]);
    }
    if event.conversationID !in w.conversations {
      return Err;
    }
    var conv := w.conversations[event.conversationID];
    var updateType := UpdateTypeFor(event.eventType, conv);
    if updateType == Unspecified || event.actorAccountID !in w.accounts {
      return Ok([]);
    }
    var actor := w.accounts[event.actorAccountID];
    if actor.isBot {
      return Ok([]);
    }
    if conv.id !in w.members {
      return Err;
    }
    var message := NO_MESSAGE;
    if event.messageID != "" {
      var loaded := w.message(conv.id, event.messageID, event.actorAccountID);
      if loaded.None? && updateType != ChatMember {
        return Ok([]);
      }
      if loaded.Some? {
        message := loaded.value;
      }
    }
    var job := Job(w, event, conv, w.members[conv.id], actor, message, updateType, now);
    result := GatherEntries(job);
  }

  // --- who is told, and what ---

  // Accounts are stored under their own, already trimmed, IDs.
  ghost predicate GoodWorld(w: World) {
    && Idempotent(w.trim)
    && forall id {:trigger id in w.accounts} :: id in w.accounts ==> w.accounts[id].id == id && w.trim(id) == id
  }

  ghost predicate DistinctMembers(members: seq<Member>) {
    forall i, j :: 0 <= i < j < |members| ==> members[i].accountID != members[j].accountID
  }

  // A change of membership is shown to the target itself and to owner and admin bots, as
  // long as the target is a known member and the change is a known one.
  ghost predicate Concerns(job: Job, m: Member) {
    var target := Target(job);
    && target != ""
    && target in job.w.accounts
    && (exists k :: 0 <= k < |job.members| && job.members[k].accountID == target)
    && (target == m.accountID || CanObserve(m))
    && !ChangeOf(job.w, job.event).NoChange?
  }

  ghost predicate Receives(job: Job, m: Member) {
    && m.accountID != job.event.actorAccountID
    && m.leftAt == 0 && !m.banned
    && m.accountID in job.w.accounts
    && job.w.accounts[m.accountID].isBot && job.w.accounts[m.accountID].active
    && (if job.updateType == ChatMember then Concerns(job, m)
        else ShouldRoute(job.w, job.conv, job.message, m.accountID))
  }

  lemma ObservedIff(job: Job, m: Member)
    ensures Observation(job, m, m.accountID).Some? <==> Concerns(job, m)
  {
    var found := FindMember(job.members, Target(job));
    if found.Some? {
      var k :| 0 <= k < |job.members| && job.members[k] == found.value;
    }
  }

  lemma EntryIff(job: Job, m: Member)
    requires GoodWorld(job.w) && Entry(job, m).Ok?
    ensures Entry(job, m).value.Some? <==> Receives(job, m)
  {
    ObservedIff(job, m);
  }

  lemma MessageEntryFacts(job: Job, bot: string)
    requires JobType(job.updateType) && job.updateType != ChatMember && Idempotent(job.w.trim) && job.now > 0
    requires MessageEntry(job, bot).Ok? && MessageEntry(job, bot).value.Some?
    ensures var e := MessageEntry(job, bot).value.value;
            && Normal(job.w.trim, e)
            && Shaped(e) && e.updateType == job.updateType && e.attempts == 0 && e.updateID == 0
            && e.botAccountID == job.w.trim(bot) && e.eventID == job.w.trim(job.event.eventID)
  {
  }

  lemma MemberEntryFacts(job: Job, m: Member, bot: string)
    requires Idempotent(job.w.trim) && job.now > 0
    requires MemberEntry(job, m, bot).Ok? && MemberEntry(job, m, bot).value.Some?
    ensures var e := MemberEntry(job, m, bot).value.value;
            && Normal(job.w.trim, e)
            && Shaped(e) && e.attempts == 0 && e.updateID == 0
            && e.updateType == (if Target(job) == bot then MyChatMember else ChatMember)
            && e.botAccountID == job.w.trim(bot)
            && e.eventID == job.w.trim(job.event.eventID + ":" + Target(job) + ":" + TypeName(e.updateType))
  {
  }

  // The ID an entry is filed under.
  function EventIDFor(job: Job, t: UpdateType): string {
    if job.updateType == ChatMember then job.event.eventID + ":" + Target(job) + ":" + TypeName(t)
    else job.event.eventID
  }

  // Everything there is to know about the entry made for one member.
  lemma EntryFacts(job: Job, m: Member)
    requires GoodWorld(job.w) && job.now > 0 && JobType(job.updateType)
    requires Entry(job, m).Ok? && Entry(job, m).value.Some?
    ensures var e := Entry(job, m).value.value;
            && Receives(job, m)
            && Normal(job.w.trim, e)
            && Shaped(e) && e.attempts == 0 && e.updateID == 0
            && e.botAccountID == m.accountID
            && (e.updateType == MyChatMember <==> job.updateType == ChatMember && Target(job) == m.accountID)
            && (e.updateType != MyChatMember ==> e.updateType == job.updateType)
            && e.eventID == job.w.trim(EventIDFor(job, e.updateType))
  {
    EntryIff(job, m);
    var bot := BotAccount(job, m).value.id;
    if job.updateType == ChatMember {
      MemberEntryFacts(job, m, bot);
    } else {
      MessageEntryFacts(job, bot);
    }
  }

  function Bots(entries: seq<QueueEntry>): seq<string> {
    if entries == [] then [] else Bots(entries[..|entries| - 1]) + [entries[|entries| - 1].botAccountID]
  }

  ghost function Receivers(job: Job, members: seq<Member>): seq<string> {
    if members == [] then [] else
    var front, last := Receivers(job, members[..|members| - 1]), members[|members| - 1];
    if Receives(job, last) then front + [last.accountID] else front
  }

  // The entries go to exactly the members that are to be told, one each, in member order.
  lemma {:induction false} EntriesForReceivers(job: Job, members: seq<Member>)
    requires GoodWorld(job.w) && job.now > 0 && JobType(job.updateType) && Gather(job, members).Ok?
    ensures Bots(Gather(job, members).value) == Receivers(job, members)
    decreases |members|
  {
    if members != [] {
      var front, last := members[..|members| - 1], members[|members| - 1];
      EntriesForReceivers(job, front);
      EntryIff(job, last);
      if Receives(job, last) {
        EntryFacts(job, last);
        BotsSnoc(Gather(job, front).value, Entry(job, last).value.value);
      }
    }
  }

  lemma BotsSnoc(entries: seq<QueueEntry>, e: QueueEntry)
    ensures Bots(entries + [e]) == Bots(entries) + [e.botAccountID]
  {
    assert (entries + [e])[..|entries|] == entries;
  }

  lemma {:induction false} BotsAt(entries: seq<QueueEntry>, i: nat)
    requires i < |entries|
    ensures |Bots(entries)| == |entries| && Bots(entries)[i] == entries[i].botAccountID
    decreases |entries|
  {
    if i < |entries| - 1 {
      BotsAt(entries[..|entries| - 1], i);
    } else if i > 0 {
      BotsAt(entries[..|entries| - 1], i - 1);
    }
  }

  // Each entry stems from one member.
  lemma {:induction false} EntryOrigin(job: Job, members: seq<Member>, i: nat) returns (k: nat)
    requires Gather(job, members).Ok? && i < |Gather(job, members).value|
    ensures k < |members| && Entry(job, members[k]) == Ok(Some(Gather(job, members).value[i]))
    decreases |members|
  {
    var front := members[..|members| - 1];
    if i < |Gather(job, front).value| {
      k := EntryOrigin(job, front, i);
    } else {
      k := |members| - 1;
    }
  }

  lemma {:induction false} ReceiverOrigin(job: Job, members: seq<Member>, i: nat) returns (k: nat)
    requires i < |Receivers(job, members)|
    ensures k < |members| && members[k].accountID == Receivers(job, members)[i]
    decreases |members|
  {
    var front := members[..|members| - 1];
    if i < |Receivers(job, front)| {
      k := ReceiverOrigin(job, front, i);
    } else {
      k := |members| - 1;
    }
  }

  lemma {:induction false} ReceiversDistinct(job: Job, members: seq<Member>, i: nat, j: nat)
    requires DistinctMembers(members) && i < j < |Receivers(job, members)|
    ensures Receivers(job, members)[i] != Receivers(job, members)[j]
    decreases |members|
  {
    var front := members[..|members| - 1];
    if j < |Receivers(job, front)| {
      ReceiversDistinct(job, front, i, j);
    } else {
      var k := ReceiverOrigin(job, front, i);
    }
  }

  // A bot gets at most one entry for an event.
  lemma OneEntryPerBot(job: Job, i: nat, j: nat)
    requires GoodWorld(job.w) && job.now > 0 && JobType(job.updateType) && DistinctMembers(job.members) && Gather(job, job.members).Ok?
    requires i < j < |Gather(job, job.members).value|
    ensures Gather(job, job.members).value[i].botAccountID != Gather(job, job.members).value[j].botAccountID
  {
    var entries := Gather(job, job.members).value;
    EntriesForReceivers(job, job.members);
    BotsAt(entries, i);
    BotsAt(entries, j);
    ReceiversDistinct(job, job.members, i, j);
  }

  // What a membership update says: who changed the target and when, the target's status now,
  // and a status before that fits the change.
  lemma EntryShowsChange(job: Job, m: Member)
    requires GoodWorld(job.w) && job.event.createdAt != 0 && job.updateType == ChatMember
    requires Entry(job, m).Ok? && Entry(job, m).value.Some?
    ensures var payload := Entry(job, m).value.value.payload;
            var target := FindMember(job.members, Target(job));
            && target.Some?
            && (payload.chatMember.Some? || payload.myChatMember.Some?)
            && var c := if payload.chatMember.Some? then payload.chatMember.value else payload.myChatMember.value;
            && c.from == job.actor && c.date == job.event.createdAt
            && c.before.user.id == c.after.user.id == target.value.accountID
            && c.after.status == StatusOf(target.value, target.value.muted)
            && (ChangeOf(job.w, job.event).Added? ==> c.before.status == Left)
            && (ChangeOf(job.w, job.event).Removed? ==> c.before.status != Left)
  {
    StatusTransition(job.event, ChangeOf(job.w, job.event), FindMember(job.members, Target(job)).value);
  }

  // Only a bot that still takes part hears of its own membership: the bot that was just
  // removed or banned gets no my_chat_member update.
  lemma DepartedBotHearsNothing(job: Job, m: Member)
    requires GoodWorld(job.w) && job.now > 0 && JobType(job.updateType) && DistinctMembers(job.members) && m in job.members
    requires Entry(job, m).Ok? && Entry(job, m).value.Some? && Entry(job, m).value.value.updateType == MyChatMember
    ensures FindMember(job.members, Target(job)) == Some(m) && m.leftAt == 0 && !m.banned
    ensures ChangeOf(job.w, job.event).Removed? ==>
              Entry(job, m).value.value.payload.myChatMember.value.before
              == Entry(job, m).value.value.payload.myChatMember.value.after
  {
    EntryFacts(job, m);
    var found := FindMember(job.members, Target(job));
    var a :| 0 <= a < |job.members| && job.members[a] == m;
    if found.Some? {
      var b :| 0 <= b < |job.members| && job.members[b] == found.value;
    }
  }

  // --- keys ---

  // Event IDs as newID mints them: a prefix and base64url text.
  ghost predicate GoodEvent(event: Event) {
    event.eventID != "" && TrimSpace(event.eventID) == event.eventID && ':' !in event.eventID
  }

  // A world as the stores keep it, with Go's TrimSpace.
  ghost predicate UsableWorld(w: World) {
    && GoodWorld(w)
    && w.trim == TrimSpace
    && forall id {:trigger id in w.members} :: id in w.members ==> DistinctMembers(w.members[id])
  }

  lemma TypeNameEnds(t: UpdateType)
    ensures TypeName(t) != "" && TypeName(t)[|TypeName(t)| - 1] == 'r'
  {
  }

  lemma JoinedIDTrimmed(a: string, target: string, b: string)
    requires a != "" && Trimmed(a) && b != "" && b[|b| - 1] == 'r'
    ensures Trimmed(a + ":" + target + ":" + b)
  {
    var s := a + ":" + target + ":" + b;
    assert s[0] == a[0];
    assert s[|s| - 1] == b[|b| - 1];
  }

  // The event can be read back from the key of each of its entries.
  lemma EventFromKey(job: Job, t: UpdateType)
    requires GoodEvent(job.event)
    ensures Before(TrimSpace(EventIDFor(job, t)), ':') == job.event.eventID
  {
    var id := job.event.eventID;
    TrimmedIffFixed(id);
    if job.updateType == ChatMember {
      var rest := Target(job) + ":" + TypeName(t);
      TypeNameEnds(t);
      JoinedIDTrimmed(id, Target(job), TypeName(t));
      TrimmedIffFixed(EventIDFor(job, t));
      assert EventIDFor(job, t) == id + [':'] + rest;
      BeforeOfJoin(id, ':', rest);
    } else {
      BeforeOfSeparatorFree(id, ':');
    }
  }

  predicate FanoutType(t: UpdateType) {
    JobType(t) || t == MyChatMember
  }

  // What fan-out may save for an event: well-shaped, untried entries that name the event,
  // for different bots.
  ghost predicate GoodEntry(trim: string -> string, event: Event, e: QueueEntry) {
    Normal(trim, e) && Shaped(e) && e.attempts == 0 && FanoutType(e.updateType) && Before(e.eventID, ':') == event.eventID
  }

  ghost predicate GoodBatch(trim: string -> string, event: Event, entries: seq<QueueEntry>) {
    && (forall i :: 0 <= i < |entries| ==> GoodEntry(trim, event, entries[i]))
    && (forall i, j :: 0 <= i < j < |entries| ==> entries[i].botAccountID != entries[j].botAccountID)
  }

  lemma PreparedJob(w: World, event: Event, now: Time)
    requires UsableWorld(w) && Prepare(w, event, now).Ok? && Prepare(w, event, now).value.Some?
    ensures var job := Prepare(w, event, now).value.value;
            && job.w == w && job.event == event && job.now == now && JobType(job.updateType) && DistinctMembers(job.members)
  {
  }

  lemma GatherIsGoodBatch(job: Job)
    requires UsableWorld(job.w) && job.now > 0 && GoodEvent(job.event) && JobType(job.updateType) && DistinctMembers(job.members)
    requires Gather(job, job.members).Ok?
    ensures GoodBatch(job.w.trim, job.event, Gather(job, job.members).value)
  {
    var entries := Gather(job, job.members).value;
    forall i | 0 <= i < |entries|
      ensures GoodEntry(job.w.trim, job.event, entries[i])
    {
      var k := EntryOrigin(job, job.members, i);
      EntryFacts(job, job.members[k]);
      EventFromKey(job, entries[i].updateType);
    }
    forall i, j | 0 <= i < j < |entries|
      ensures entries[i].botAccountID != entries[j].botAccountID
    {
      OneEntryPerBot(job, i, j);
    }
  }

  lemma BuildIsGoodBatch(w: World, event: Event, now: Time)
    requires UsableWorld(w) && now > 0 && GoodEvent(event) && Build(w, event, now).Ok?
    ensures GoodBatch(w.trim, event, Build(w, event, now).value)
  {
    if Prepare(w, event, now).Ok? && Prepare(w, event, now).value.Some? {
      PreparedJob(w, event, now);
      GatherIsGoodBatch(Prepare(w, event, now).value.value);
    }
  }

  // --- entries outside fan-out ---

  datatype Trigger =
    | Callback(bot: string, callbackID: string, query: Json)
    | Inline(bot: string, queryID: string, query: Json)
    | Chosen(bot: string, queryID: string, resultID: string, chosen: Json)

  // The entries of TriggerCallbackQuery, TriggerInlineQuery and TriggerChosenInlineResult.
  function TriggerEntry(t: Trigger, now: Time): QueueEntry {
    match t
    case Callback(bot, id, query) =>
      QueueEntry(0, bot, id, CallbackQuery, NO_UPDATE.(callbackQuery := Some(query)), 0, now, "", now, now)
    case Inline(bot, id, query) =>
      QueueEntry(0, bot, id, InlineQuery, NO_UPDATE.(inlineQuery := Some(query)), 0, now, "", now, now)
    case Chosen(bot, id, resultID, chosen) =>
      QueueEntry(0, bot, id + ":" + resultID + ":chosen", ChosenInlineResult,
                 NO_UPDATE.(chosenInlineResult := Some(chosen)), 0, now, "", now, now)
  }

  // A trigger's entry is well shaped and never shares a key with a fan-out entry.
  lemma TriggerFacts(t: Trigger, now: Time)
    ensures Shaped(TriggerEntry(t, now)) && !FanoutType(TriggerEntry(t, now).updateType)
  {
  }

  lemma {:induction false} SameTail(a: string, b: string, tail: string)
    requires a + tail == b + tail
    ensures a == b
  {
    assert |a + tail| == |b + tail|;
    assert (a + tail)[..|a|] == a && (b + tail)[..|b|] == b;
  }

  lemma {:induction false} SameJoin(a: string, x: string, b: string, y: string)
    requires ':' !in a && ':' !in b && a + ":" + x == b + ":" + y
    ensures a == b && x == y
  {
    BeforeOfJoin(a, ':', x);
    BeforeOfJoin(b, ':', y);
    assert (a + ":" + x)[|a| + 1..] == x && (b + ":" + y)[|b| + 1..] == y;
  }

  // The ID of the query behind a trigger; minted IDs hold no colon.
  function QueryID(t: Trigger): string {
    match t case Callback(_, id, _) => id case Inline(_, id, _) => id case Chosen(_, id, _, _) => id
  }

  // Two triggers' entries share bot, event ID and type, so that only one is kept, exactly when
  // they are of one kind, for one bot and one query and, for a choice, of one result.
  lemma {:induction false} TriggersCollideIff(a: Trigger, b: Trigger, now: Time, later: Time)
    requires ':' !in QueryID(a) && ':' !in QueryID(b)
    ensures var x, y := TriggerEntry(a, now), TriggerEntry(b, later);
            x.botAccountID == y.botAccountID && x.eventID == y.eventID && x.updateType == y.updateType
            <==> (a.Callback? <==> b.Callback?) && (a.Inline? <==> b.Inline?)
                 && a.bot == b.bot && QueryID(a) == QueryID(b) && (a.Chosen? ==> a.resultID == b.resultID)
  {
    if a.Chosen? && b.Chosen? && TriggerEntry(a, now).eventID == TriggerEntry(b, later).eventID {
      SameTail(a.queryID + ":" + a.resultID, b.queryID + ":" + b.resultID, ":chosen");
      SameJoin(a.queryID, a.resultID, b.queryID, b.resultID);
    }
  }
}
