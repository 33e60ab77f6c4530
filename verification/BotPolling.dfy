// A bot that only polls: it sends the ID of its last update plus one, asks for every type,
// and may lose answers on the way. Other bots do what they like in between.
module BotPolling {
  import opened BotUpdates
  import opened BotTables
  import opened BotService

  // saved: every row ever saved for the bot; acked: how many of them are gone from the queue.
  datatype State = State(tables: Tables, saved: seq<QueueEntry>, acked: nat, received: seq<Update>)

  function Everything(bot: string, most: int): Query {
    Query(bot, 0, [], 0, most)
  }

  // The bot's rows.
  function Of(rows: seq<QueueEntry>, bot: string): seq<QueueEntry> {
    Selected(rows, Everything(bot, 0))
  }

  function NextOffset(received: seq<Update>): nat {
    if received == [] then 0 else received[|received| - 1].updateID + 1
  }

  // most: the limit of a poll after clamping. WaitIsPoll shows that a poll that waits acts like
  // one made at its last look.
  datatype Action =
    | Save(trim: string -> string, e: QueueEntry, now: Time)
    | Spend(burnt: nat)
    | Poll(most: int, lost: bool)
    | Elsewhere(after: Tables)

  ghost predicate Enabled(bot: string, s: State, a: Action) {
    match a
    case Save(trim, e, now) => NormalizeEntry(trim, e, now).Ok?
    case Elsewhere(t) => Valid(t) && Of(t.rows, bot) == Of(s.tables.rows, bot) && t.nextID >= s.tables.nextID && !Hooked(t, bot)
    case _ => true
  }

  // What GetUpdates returns and leaves behind while the bot has no webhook.
  function Answer(bot: string, t: Tables, most: int): seq<QueueEntry> {
    Pending(t.rows, Everything(bot, most))
  }

  function Step(bot: string, s: State, a: Action): State
    requires Enabled(bot, s, a)
  {
    match a
    case Save(trim, e, now) =>
      var t := Insert(s.tables, NormalizeEntry(trim, e, now).value);
      s.(tables := t, saved := s.saved + Of(t.rows[|s.tables.rows|..], bot))
    case Spend(burnt) => s.(tables := s.tables.(nextID := s.tables.nextID + burnt))
    case Poll(most, lost) =>
      var t := Acknowledge(s.tables, bot, NextOffset(s.received));
      s.(tables := t, acked := |s.received|, received := if lost then s.received else s.received + Numbered(Answer(bot, t, most)))
    case Elsewhere(t) => s.(tables := t)
  }

  ghost predicate Ascending(rows: seq<QueueEntry>, next: nat) {
    && (forall i :: 0 <= i < |rows| ==> 1 <= rows[i].updateID < next)
    && (forall i, j :: 0 <= i < j < |rows| ==> rows[i].updateID < rows[j].updateID)
  }

  ghost predicate SavedInv(bot: string, saved: seq<QueueEntry>, next: nat) {
    Ascending(saved, next) && forall i :: 0 <= i < |saved| ==> saved[i].botAccountID == bot
  }

  // What is pending is what was saved and not yet acknowledged.
  ghost predicate QueueInv(bot: string, t: Tables, saved: seq<QueueEntry>, acked: nat) {
    Valid(t) && !Hooked(t, bot) && acked <= |saved| && Of(t.rows, bot) == saved[acked..]
  }

  // What was received is a prefix of what was saved.
  ghost predicate ReceivedInv(saved: seq<QueueEntry>, received: seq<Update>) {
    |received| <= |saved| && received == Numbered(saved[..|received|])
  }

  ghost predicate Inv(bot: string, s: State) {
    && SavedInv(bot, s.saved, s.tables.nextID)
    && QueueInv(bot, s.tables, s.saved, s.acked)
    && ReceivedInv(s.saved, s.received)
    && s.acked <= |s.received|
  }

  // --- queue facts ---

  lemma {:induction false} OfWithout(rows: seq<QueueEntry>, bot: string, sel: Selector)
    ensures Of(Without(rows, sel), bot) == Without(Of(rows, bot), sel)
    decreases |rows|
  {
    if rows != [] {
      var front, last := rows[..|rows| - 1], rows[|rows| - 1];
      OfWithout(front, bot, sel);
      OfSnoc(Without(front, sel), last, bot);
      WithoutSnoc(Of(front, bot), last, sel);
    }
  }

  lemma OfSnoc(front: seq<QueueEntry>, e: QueueEntry, bot: string)
    ensures Of(front + [e], bot) == if e.botAccountID == bot then Of(front, bot) + [e] else Of(front, bot)
  {
    assert (front + [e])[..|front|] == front;
  }

  lemma WithoutSnoc(front: seq<QueueEntry>, e: QueueEntry, sel: Selector)
    ensures Without(front + [e], sel) == if Matches(sel, e) then Without(front, sel) else Without(front, sel) + [e]
  {
    assert (front + [e])[..|front|] == front;
  }

  // Deleting below an offset cuts a prefix off ascending rows.
  lemma {:induction false} CutPrefix(rows: seq<QueueEntry>, sel: Selector, k: nat)
    requires k <= |rows|
    requires forall i :: 0 <= i < |rows| ==> (Matches(sel, rows[i]) <==> i < k)
    ensures Without(rows, sel) == rows[k..]
    decreases |rows|
  {
    if rows != [] {
      var front := rows[..|rows| - 1];
      if k == |rows| {
        CutPrefix(front, sel, k - 1);
      } else {
        CutPrefix(front, sel, k);
        assert rows[k..] == front[k..] + [rows[|rows| - 1]];
      }
    }
  }

  lemma {:induction false} SelectedAnyLimit(rows: seq<QueueEntry>, bot: string, most: int)
    ensures Selected(rows, Everything(bot, most)) == Of(rows, bot)
    decreases |rows|
  {
    if rows != [] {
      SelectedAnyLimit(rows[..|rows| - 1], bot, most);
    }
  }

  lemma {:induction false} OfJoin(a: seq<QueueEntry>, b: seq<QueueEntry>, bot: string)
    ensures Of(a + b, bot) == Of(a, bot) + Of(b, bot)
    decreases |b|
  {
    if b == [] {
      assert a + b == a;
    } else {
      OfJoin(a, b[..|b| - 1], bot);
      assert (a + b)[..|a + b| - 1] == a + b[..|b| - 1];
    }
  }

  lemma {:induction false} NumberedJoin(a: seq<QueueEntry>, b: seq<QueueEntry>)
    ensures Numbered(a + b) == Numbered(a) + Numbered(b)
    decreases |b|
  {
    if b == [] {
      assert a + b == a;
    } else {
      NumberedJoin(a, b[..|b| - 1]);
      assert (a + b)[..|a + b| - 1] == a + b[..|b| - 1];
    }
  }

  lemma NumberedLength(entries: seq<QueueEntry>)
    ensures |Numbered(entries)| == |entries|
  {
    if entries != [] {
      NumberedAt(entries, 0);
    }
  }

  // The offset the client sends stands right after the last row it received.
  lemma OffsetOfLast(saved: seq<QueueEntry>, received: seq<Update>, next: nat)
    requires |received| <= |saved| && received == Numbered(saved[..|received|]) && Ascending(saved, next)
    ensures forall i :: 0 <= i < |saved| ==> (saved[i].updateID < NextOffset(received) <==> i < |received|)
  {
    if received != [] {
      NumberedAt(saved[..|received|], |received| - 1);
    }
  }

  // --- steps ---

  lemma AckLeaves(bot: string, s: State)
    requires Inv(bot, s)
    ensures var t := Acknowledge(s.tables, bot, NextOffset(s.received));
            QueueInv(bot, t, s.saved, |s.received|) && t.nextID == s.tables.nextID
  {
    var offset := NextOffset(s.received);
    OffsetOfLast(s.saved, s.received, s.tables.nextID);
    if offset > 0 {
      var sel := Below(bot, offset);
      var pending, k := s.saved[s.acked..], |s.received| - s.acked;
      forall i | 0 <= i < |pending|
        ensures Matches(sel, pending[i]) <==> i < k
      {
        assert pending[i] == s.saved[s.acked + i];
      }
      CutPrefix(pending, sel, k);
      assert pending[k..] == s.saved[|s.received|..];
      OfWithout(s.tables.rows, bot, sel);
      DeleteValid(s.tables, sel);
    }
  }

  // How many of the remaining rows an answer brings.
  function Fetch(rest: int, most: int): int {
    if most <= 0 then 0 else if rest <= most then rest else most
  }

  // An answer is the next rows the client has not seen, up to the limit.
  lemma AnswerIsNext(bot: string, s: State, most: int) returns (m: nat)
    requires Inv(bot, s)
    ensures m == Fetch(|s.saved| - |s.received|, most)
    ensures Answer(bot, Acknowledge(s.tables, bot, NextOffset(s.received)), most)
            == s.saved[|s.received|..|s.received| + m]
  {
    var t := Acknowledge(s.tables, bot, NextOffset(s.received));
    AckLeaves(bot, s);
    SelectedAnyLimit(t.rows, bot, most);
    var rest := s.saved[|s.received|..];
    m := Fetch(|rest|, most);
    assert rest[..m] == s.saved[|s.received|..|s.received| + m];
  }

  // Appending the next m rows keeps what was received a prefix.
  lemma ReceiveNext(saved: seq<QueueEntry>, received: seq<Update>, m: nat)
    requires ReceivedInv(saved, received) && |received| + m <= |saved|
    ensures var more := received + Numbered(saved[|received|..|received| + m]);
            |more| == |received| + m && ReceivedInv(saved, more)
  {
    var got := |received|;
    var next := saved[got..got + m];
    NumberedJoin(saved[..got], next);
    NumberedLength(next);
    assert saved[..got] + next == saved[..got + m];
  }

  lemma {:induction false} PollReceives(bot: string, s: State, most: int)
    requires Inv(bot, s)
    ensures var more := s.received + Numbered(Answer(bot, Acknowledge(s.tables, bot, NextOffset(s.received)), most));
            |more| == |s.received| + Fetch(|s.saved| - |s.received|, most) && ReceivedInv(s.saved, more)
  {
    var m := AnswerIsNext(bot, s, most);
    ReceiveNext(s.saved, s.received, m);
  }

  lemma PollKeepsInv(bot: string, s: State, most: int, lost: bool)
    requires Inv(bot, s)
    ensures Inv(bot, Step(bot, s, Poll(most, lost)))
  {
    AckLeaves(bot, s);
    PollReceives(bot, s, most);
  }

  // An answered poll brings the next rows, as many as are left or as the limit allows.
  lemma {:induction false} PollFetches(bot: string, s: State, most: int)
    requires Inv(bot, s)
    ensures |Step(bot, s, Poll(most, false)).received| == |s.received| + Fetch(|s.saved| - |s.received|, most)
  {
    PollReceives(bot, s, most);
  }

  lemma SaveKeepsInv(bot: string, s: State, trim: string -> string, e: QueueEntry, now: Time)
    requires Inv(bot, s) && NormalizeEntry(trim, e, now).Ok?
    ensures Inv(bot, Step(bot, s, Save(trim, e, now)))
  {
    var n := NormalizeEntry(trim, e, now).value;
    InsertKeepsInv(bot, s, n);
  }

  lemma InsertAdds(bot: string, t: Tables, n: QueueEntry) returns (more: seq<QueueEntry>)
    requires Valid(t)
    ensures var later := Insert(t, n);
            && Of(later.rows[|t.rows|..], bot) == more
            && Of(later.rows, bot) == Of(t.rows, bot) + more
    ensures more == [] || (|more| == 1 && more[0].updateID == t.nextID && more[0].botAccountID == bot)
  {
    if KeyTaken(t.rows, n) {
      more := [];
      assert t.rows[|t.rows|..] == [];
    } else {
      var added := [n.(updateID := t.nextID)];
      assert (t.rows + added)[|t.rows|..] == added;
      OfJoin(t.rows, added, bot);
      OfOne(added, bot);
      more := Of(added, bot);
    }
  }

  lemma MoreKeepsInv(bot: string, s: State, t: Tables, more: seq<QueueEntry>)
    requires Inv(bot, s) && Valid(t) && t.webhooks == s.tables.webhooks && t.nextID == s.tables.nextID + 1
    requires Of(t.rows, bot) == Of(s.tables.rows, bot) + more
    requires more == [] || (|more| == 1 && more[0].updateID == s.tables.nextID && more[0].botAccountID == bot)
    ensures Inv(bot, State(t, s.saved + more, s.acked, s.received))
  {
    SavedMore(bot, s.saved, more, s.tables.nextID);
    PrefixStays(s.saved, more, s.acked, s.received);
  }

  lemma InsertKeepsInv(bot: string, s: State, n: QueueEntry)
    requires Inv(bot, s)
    ensures var t := Insert(s.tables, n);
            Inv(bot, State(t, s.saved + Of(t.rows[|s.tables.rows|..], bot), s.acked, s.received))
  {
    var more := InsertAdds(bot, s.tables, n);
    InsertValid(s.tables, n);
    MoreKeepsInv(bot, s, Insert(s.tables, n), more);
  }

  // A row saved with the next ID keeps the saved rows ascending.
  lemma {:induction false} SavedMore(bot: string, saved: seq<QueueEntry>, more: seq<QueueEntry>, next: nat)
    requires SavedInv(bot, saved, next) && next >= 1
    requires more == [] || (|more| == 1 && more[0].updateID == next && more[0].botAccountID == bot)
    ensures SavedInv(bot, saved + more, next + 1)
  {
    assert more != [] ==> saved + more == saved + [more[0]];
  }

  lemma {:induction false} PrefixStays(saved: seq<QueueEntry>, more: seq<QueueEntry>, acked: nat, received: seq<Update>)
    requires acked <= |saved| && ReceivedInv(saved, received)
    ensures saved[acked..] + more == (saved + more)[acked..]
    ensures ReceivedInv(saved + more, received)
  {
    assert (saved + more)[..|received|] == saved[..|received|];
  }

  lemma OfOne(rows: seq<QueueEntry>, bot: string)
    requires |rows| <= 1
    ensures Of(rows, bot) == if rows != [] && rows[0].botAccountID == bot then rows else []
  {
    if rows != [] {
      assert rows[..|rows| - 1] == [];
      assert Of(rows[..|rows| - 1], bot) == [];
      assert rows == [rows[0]];
    }
  }

  lemma StepKeepsInv(bot: string, s: State, a: Action)
    requires Inv(bot, s) && Enabled(bot, s, a)
    ensures Inv(bot, Step(bot, s, a)) && s.saved <= Step(bot, s, a).saved && s.received <= Step(bot, s, a).received
  {
    match a {
      case Save(trim, e, now) => SaveKeepsInv(bot, s, trim, e, now);
      case Spend(_) =>
      case Poll(most, lost) => PollKeepsInv(bot, s, most, lost);
      case Elsewhere(_) =>
    }
  }

  // --- runs ---

  ghost predicate Run(bot: string, s: State, actions: seq<Action>, end: State)
    decreases |actions|
  {
    if actions == [] then end == s else Enabled(bot, s, actions[0]) && Run(bot, Step(bot, s, actions[0]), actions[1..], end)
  }

  lemma {:induction false} RunKeepsInv(bot: string, s: State, actions: seq<Action>, end: State)
    requires Inv(bot, s) && Run(bot, s, actions, end)
    ensures Inv(bot, end) && s.saved <= end.saved && s.received <= end.received
    decreases |actions|
  {
    if actions != [] {
      StepKeepsInv(bot, s, actions[0]);
      RunKeepsInv(bot, Step(bot, s, actions[0]), actions[1..], end);
    }
  }

  // From empty tables, the updates received are at all times the first updates saved for the
  // bot: nothing skipped, nothing repeated, whatever answers get lost.
  lemma ReceivedIsPrefix(bot: string, actions: seq<Action>, end: State)
    requires Run(bot, State(EMPTY, [], 0, []), actions, end)
    ensures |end.received| <= |end.saved|
    ensures forall i :: 0 <= i < |end.received| ==>
                          end.received[i] == end.saved[i].payload.(updateID := end.saved[i].updateID)
    ensures Ascending(end.saved, end.tables.nextID)
  {
    RunKeepsInv(bot, State(EMPTY, [], 0, []), actions, end);
    forall i | 0 <= i < |end.received|
      ensures end.received[i] == end.saved[i].payload.(updateID := end.saved[i].updateID)
    {
      NumberedAt(end.saved[..|end.received|], i);
    }
  }

  // A client that polls again and again: each state is the one before it after an answered poll.
  ghost predicate Polling(bot: string, states: seq<State>, most: int) {
    forall i :: 0 <= i && i + 1 < |states| ==> states[i + 1] == Step(bot, states[i], Poll(most, false))
  }

  // With nothing new saved and a positive limit, each answered poll makes progress until everything is received.
  lemma {:induction false} PollsCatchUp(bot: string, states: seq<State>, most: int, n: nat)
    requires n < |states| && Polling(bot, states, most) && Inv(bot, states[0]) && most >= 1
    ensures Inv(bot, states[n]) && states[n].saved == states[0].saved
    ensures |states[n].received| == |states[0].saved| || |states[n].received| >= |states[0].received| + n
    decreases n
  {
    if n > 0 {
      PollsCatchUp(bot, states, most, n - 1);
      assert states[n - 1 + 1] == Step(bot, states[n - 1], Poll(most, false));
      PollProgress(bot, states[n - 1], most, states[n]);
    }
  }

  lemma {:induction false} PollProgress(bot: string, s: State, most: int, next: State)
    requires Inv(bot, s) && most >= 1 && next == Step(bot, s, Poll(most, false))
    ensures Inv(bot, next) && next.saved == s.saved
    ensures |next.received| == |s.saved| || |next.received| > |s.received|
    ensures |s.received| <= |next.received| <= |s.saved|
  {
    PollKeepsInv(bot, s, most, false);
    PollFetches(bot, s, most);
    PollSavesNothing(bot, s, most);
  }

  lemma PollSavesNothing(bot: string, s: State, most: int)
    ensures Step(bot, s, Poll(most, false)).saved == s.saved
  {
  }

  // --- waiting ---

  // Other callers at work: anything but a poll of this bot.
  ghost predicate Quiet(bot: string, s: State, end: State) {
    exists actions: seq<Action> :: Run(bot, s, actions, end) && forall i :: 0 <= i < |actions| ==> !actions[i].Poll?
  }

  // The queue holds exactly what the client has not received.
  ghost predicate Acked(bot: string, s: State) {
    Inv(bot, s) && s.acked == |s.received|
  }

  lemma {:induction false} QuietRunKeeps(bot: string, s: State, actions: seq<Action>, end: State)
    requires Acked(bot, s) && Run(bot, s, actions, end) && forall i :: 0 <= i < |actions| ==> !actions[i].Poll?
    ensures Acked(bot, end) && end.received == s.received && s.saved <= end.saved
    decreases |actions|
  {
    if actions != [] {
      StepKeepsInv(bot, s, actions[0]);
      QuietRunKeeps(bot, Step(bot, s, actions[0]), actions[1..], end);
    }
  }

  lemma QuietKeeps(bot: string, s: State, end: State)
    requires Acked(bot, s) && Quiet(bot, s, end)
    ensures Acked(bot, end) && end.received == s.received && s.saved <= end.saved
  {
    var actions: seq<Action> :| Run(bot, s, actions, end) && forall i :: 0 <= i < |actions| ==> !actions[i].Poll?;
    QuietRunKeeps(bot, s, actions, end);
  }

  lemma {:induction false} WithoutNone(rows: seq<QueueEntry>, sel: Selector)
    requires forall i :: 0 <= i < |rows| ==> !Matches(sel, rows[i])
    ensures Without(rows, sel) == rows
    decreases |rows|
  {
    if rows != [] {
      WithoutNone(rows[..|rows| - 1], sel);
      assert rows == rows[..|rows| - 1] + [rows[|rows| - 1]];
    }
  }

  // Deleting below the same offset again deletes nothing.
  lemma AcknowledgedOnce(bot: string, s: State)
    requires Acked(bot, s)
    ensures Acknowledge(s.tables, bot, NextOffset(s.received)) == s.tables
  {
    var rows, sel := s.tables.rows, Below(bot, NextOffset(s.received));
    OffsetOfLast(s.saved, s.received, s.tables.nextID);
    forall i | 0 <= i < |rows|
      ensures !Matches(sel, rows[i])
    {
      SelectedHas(rows, Everything(bot, 0), rows[i]);
      if rows[i].botAccountID == bot {
        var pending := s.saved[s.acked..];
        var k :| 0 <= k < |pending| && pending[k] == rows[i];
        assert s.saved[s.acked + k] == rows[i];
      }
    }
    WithoutNone(rows, sel);
  }

  function WaitsOf(states: seq<State>): seq<Wait> {
    if |states| <= 1 then [] else [Elapsed(states[1].tables)] + WaitsOf(states[1..])
  }

  // The long poll answers with what a look at one of these states finds.
  lemma {:induction false} LookedAtOne(bot: string, states: seq<State>, most: int) returns (j: nat)
    requires |states| >= 1
    ensures j < |states|
    ensures Looked(states[0].tables, Everything(bot, most), WaitsOf(states))
            == (states[j].tables, Batch(Numbered(Answer(bot, states[j].tables, most))))
    decreases |states|
  {
    if Answer(bot, states[0].tables, most) != [] || |states| == 1 {
      j := 0;
    } else {
      assert WaitsOf(states)[1..] == WaitsOf(states[1..]);
      var k := LookedAtOne(bot, states[1..], most);
      j := k + 1;
    }
  }

  ghost predicate Waiting(bot: string, states: seq<State>) {
    forall i :: 0 <= i && i + 1 < |states| ==> Quiet(bot, states[i], states[i + 1])
  }

  lemma {:induction false} WaitingKeeps(bot: string, states: seq<State>, j: nat)
    requires j < |states| && Waiting(bot, states) && Acked(bot, states[0])
    ensures Acked(bot, states[j]) && states[j].received == states[0].received
    decreases j
  {
    if j > 0 {
      WaitingKeeps(bot, states, j - 1);
      assert Quiet(bot, states[j - 1], states[j - 1 + 1]);
      QuietKeeps(bot, states[j - 1], states[j]);
    }
  }

  // A call that deletes, and then looks again and again while others work, gives the client what
  // one poll made at the state of its last look gives, and leaves the same tables.
  lemma WaitIsPoll(bot: string, s: State, states: seq<State>, most: int) returns (j: nat)
    requires Inv(bot, s) && states != [] && states[0] == Step(bot, s, Poll(most, true)) && Waiting(bot, states)
    ensures j < |states|
    ensures var (end, polled) := Looked(Acknowledge(s.tables, bot, NextOffset(s.received)), Everything(bot, most), WaitsOf(states));
            var poll := Step(bot, states[j], Poll(most, false));
            polled.Batch? && poll.received == s.received + polled.updates && poll.tables == end
  {
    PollKeepsInv(bot, s, most, true);
    j := LookedAtOne(bot, states, most);
    WaitingKeeps(bot, states, j);
    AcknowledgedOnce(bot, states[j]);
  }

  // --- type filters ---

  // With a type filter, acknowledging an answer deletes rows the client was never shown exactly
  // when some row below the new offset is of a type the filter holds back.
  lemma FilteredAckLosesIff(bot: string, t: Tables, allowed: seq<UpdateType>, most: int)
    requires Valid(t) && Pending(t.rows, Query(bot, 0, allowed, 0, most)) != []
    ensures var shown := Pending(t.rows, Query(bot, 0, allowed, 0, most));
            var offset := shown[|shown| - 1].updateID + 1;
            (exists e :: e in t.rows && e !in Acknowledge(t, bot, offset).rows && e !in shown)
            <==> exists e :: e in t.rows && e.botAccountID == bot && e.updateID < offset && !Allows(allowed, e.updateType)
  {
    var shown := Pending(t.rows, Query(bot, 0, allowed, 0, most));
    var offset := shown[|shown| - 1].updateID + 1;
    forall e | e in t.rows
      ensures e !in Acknowledge(t, bot, offset).rows && e !in shown
              <==> e.botAccountID == bot && e.updateID < offset && !Allows(allowed, e.updateType)
    {
      WithoutHas(t.rows, Below(bot, offset), e);
      PendingExact(t, Query(bot, 0, allowed, 0, most), e);
    }
    if e :| e in t.rows && e !in Acknowledge(t, bot, offset).rows && e !in shown {
      assert e.botAccountID == bot && e.updateID < offset && !Allows(allowed, e.updateType);
    }
    if e :| e in t.rows && e.botAccountID == bot && e.updateID < offset && !Allows(allowed, e.updateType) {
      assert e !in Acknowledge(t, bot, offset).rows && e !in shown;
    }
  }
}
