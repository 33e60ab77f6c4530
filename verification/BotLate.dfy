// Polling when transactions commit out of order: an update ID is drawn before its row becomes
// visible, so a row may appear below IDs the client has already received. A call deletes the
// rows below its offset once, and then looks, without a lower bound, until it finds something.
module BotLate {
  import opened BotUpdates
  import opened BotTables
  import opened BotService
  import opened BotPolling

  // visible: every row of the bot that ever became visible, by ID; asked: a call has deleted
  // and not yet found anything.
  datatype Client = Client(rows: seq<QueueEntry>, visible: map<int, QueueEntry>, received: seq<Update>, asked: bool)

  const START := Client([], map[], [], false)

  datatype Move =
    | Appear(e: QueueEntry)
    | Acknowledge
    | Look(most: int, lost: bool)
    | Others(after: seq<QueueEntry>)

  // One more than the largest ID received.
  function Offset(received: seq<Update>): nat {
    if received == [] then 0 else
    var front, last := Offset(received[..|received| - 1]), received[|received| - 1].updateID;
    if last + 1 > front then last + 1 else front
  }

  ghost predicate InOrder(rows: seq<QueueEntry>) {
    && (forall i :: 0 <= i < |rows| ==> 1 <= rows[i].updateID)
    && (forall i, j :: 0 <= i < j < |rows| ==> rows[i].updateID < rows[j].updateID)
  }

  // A new row has an ID of its own; other bots do as they like; a call looks after it deleted.
  ghost predicate Allowed(bot: string, c: Client, m: Move) {
    match m
    case Appear(e) => e.updateID >= 1 && e.updateID !in c.visible && forall r :: r in c.rows ==> r.updateID != e.updateID
    case Acknowledge => true
    case Look(_, _) => c.asked
    case Others(after) =>
      InOrder(after) && forall r: QueueEntry :: r.botAccountID == bot ==> (r in after <==> r in c.rows)
  }

  // The row among the others, by ID.
  function Place(rows: seq<QueueEntry>, e: QueueEntry): seq<QueueEntry> {
    if rows == [] || rows[|rows| - 1].updateID < e.updateID then rows + [e]
    else Place(rows[..|rows| - 1], e) + [rows[|rows| - 1]]
  }

  function Remaining(bot: string, c: Client): seq<QueueEntry> {
    if Offset(c.received) > 0 then Without(c.rows, Below(bot, Offset(c.received))) else c.rows
  }

  function Found(bot: string, c: Client, most: int): seq<QueueEntry> {
    Pending(c.rows, Everything(bot, most))
  }

  function Next(bot: string, c: Client, m: Move): Client {
    match m
    case Appear(e) =>
      c.(rows := Place(c.rows, e), visible := if e.botAccountID == bot then c.visible[e.updateID := e] else c.visible)
    case Acknowledge => c.(rows := Remaining(bot, c), asked := true)
    case Look(most, lost) =>
      var found := Found(bot, c, most);
      if found == [] then c
      else c.(received := if lost then c.received else c.received + Numbered(found), asked := false)
    case Others(after) => c.(rows := after)
  }

  // The client after these moves.
  function After(bot: string, moves: seq<Move>): Client {
    if moves == [] then START else Next(bot, After(bot, moves[..|moves| - 1]), moves[|moves| - 1])
  }

  ghost predicate Run(bot: string, moves: seq<Move>) {
    moves == []
    || (Run(bot, moves[..|moves| - 1]) && Allowed(bot, After(bot, moves[..|moves| - 1]), moves[|moves| - 1]))
  }

  ghost predicate Got(received: seq<Update>, id: int) {
    exists i :: 0 <= i < |received| && received[i].updateID == id
  }

  // --- what every run keeps ---

  // The queue holds only visible rows of the bot, in ID order with those of the others.
  ghost predicate QueueOK(bot: string, rows: seq<QueueEntry>, visible: map<int, QueueEntry>) {
    && InOrder(rows)
    && (forall id {:trigger id in visible} :: id in visible ==> visible[id].updateID == id && visible[id].botAccountID == bot)
    && (forall r :: r in rows && r.botAccountID == bot ==> r.updateID in visible && visible[r.updateID] == r)
  }

  // Only visible rows are received, with their payloads.
  ghost predicate ContentsOK(visible: map<int, QueueEntry>, received: seq<Update>) {
    forall i :: 0 <= i < |received| ==>
      && received[i].updateID in visible
      && received[i] == visible[received[i].updateID].payload.(updateID := received[i].updateID)
  }

  ghost predicate NoRepeats(received: seq<Update>) {
    forall i, j :: 0 <= i < j < |received| ==> received[i].updateID != received[j].updateID
  }

  // Between its deletion and its answer a call finds nothing in the queue that was received.
  ghost predicate NothingOld(bot: string, c: Client) {
    c.asked ==> forall r :: r in c.rows && r.botAccountID == bot ==> !Got(c.received, r.updateID)
  }

  ghost predicate ClientInv(bot: string, c: Client) {
    QueueOK(bot, c.rows, c.visible) && ContentsOK(c.visible, c.received) && NoRepeats(c.received) && NothingOld(bot, c)
  }

  // --- rows ---

  lemma {:induction false} PlaceHas(rows: seq<QueueEntry>, e: QueueEntry, r: QueueEntry)
    ensures r in Place(rows, e) <==> r in rows || r == e
    decreases |rows|
  {
    if !(rows == [] || rows[|rows| - 1].updateID < e.updateID) {
      var front, last := rows[..|rows| - 1], rows[|rows| - 1];
      assert rows == front + [last];
      PlaceHas(front, e, r);
    }
  }

  lemma {:induction false} OrderSnoc(rows: seq<QueueEntry>, e: QueueEntry)
    requires InOrder(rows) && e.updateID >= 1 && (rows != [] ==> rows[|rows| - 1].updateID < e.updateID)
    ensures InOrder(rows + [e])
  {
  }

  // The last row of a placement is the larger of the two.
  lemma {:induction false} PlaceLast(rows: seq<QueueEntry>, e: QueueEntry)
    requires rows != []
    ensures Place(rows, e) != []
    ensures Place(rows, e)[|Place(rows, e)| - 1] == if rows[|rows| - 1].updateID < e.updateID then e else rows[|rows| - 1]
  {
  }

  lemma {:induction false} PlaceInOrder(rows: seq<QueueEntry>, e: QueueEntry)
    requires InOrder(rows) && e.updateID >= 1
    requires forall i :: 0 <= i < |rows| ==> rows[i].updateID != e.updateID
    ensures InOrder(Place(rows, e))
    decreases |rows|
  {
    if rows == [] || rows[|rows| - 1].updateID < e.updateID {
      OrderSnoc(rows, e);
    } else {
      var front, last := rows[..|rows| - 1], rows[|rows| - 1];
      PlaceInOrder(front, e);
      if front != [] {
        PlaceLast(front, e);
      }
      OrderSnoc(Place(front, e), last);
    }
  }

  // Rows in order, as tables of their own.
  function TablesOf(rows: seq<QueueEntry>): Tables {
    Tables(rows, if rows == [] then 1 else rows[|rows| - 1].updateID + 1, map[], 0)
  }

  lemma InOrderIsValid(rows: seq<QueueEntry>)
    ensures InOrder(rows) <==> Valid(TablesOf(rows))
  {
  }

  lemma WithoutInOrder(rows: seq<QueueEntry>, sel: Selector)
    requires InOrder(rows)
    ensures InOrder(Without(rows, sel))
  {
    InOrderIsValid(rows);
    DeleteValid(TablesOf(rows), sel);
  }

  // --- offsets ---

  lemma {:induction false} GotBelowOffset(received: seq<Update>, i: nat)
    requires i < |received|
    ensures received[i].updateID < Offset(received)
    decreases |received|
  {
    if i < |received| - 1 {
      GotBelowOffset(received[..|received| - 1], i);
    }
  }

  lemma GotIsBelow(received: seq<Update>, id: int)
    requires Got(received, id)
    ensures id < Offset(received)
  {
    var i :| 0 <= i < |received| && received[i].updateID == id;
    GotBelowOffset(received, i);
  }

  // After an answer the offset is the old one or follows the answer's last row.
  lemma {:induction false} OffsetAfter(before: seq<Update>, answer: seq<QueueEntry>)
    requires forall i, j :: 0 <= i < j < |answer| ==> answer[i].updateID < answer[j].updateID
    ensures Offset(before + Numbered(answer))
            == if answer == [] || answer[|answer| - 1].updateID + 1 <= Offset(before) then Offset(before)
               else answer[|answer| - 1].updateID + 1
    decreases |answer|
  {
    if answer == [] {
      assert before + Numbered(answer) == before;
    } else {
      var front := answer[..|answer| - 1];
      OffsetAfter(before, front);
      var all := before + Numbered(answer);
      assert all[..|all| - 1] == before + Numbered(front);
    }
  }

  lemma {:induction false} GotAfter(before: seq<Update>, answer: seq<QueueEntry>, id: int)
    ensures Got(before + Numbered(answer), id) <==> Got(before, id) || InAnswer(answer, id)
  {
    var after := before + Numbered(answer);
    NumberedLength(answer);
    if Got(before, id) {
      var i :| 0 <= i < |before| && before[i].updateID == id;
      assert after[i] == before[i];
    }
    if InAnswer(answer, id) {
      var i :| 0 <= i < |answer| && answer[i].updateID == id;
      NumberedAt(answer, i);
      assert after[|before| + i] == Numbered(answer)[i];
    }
    if Got(after, id) {
      var i :| 0 <= i < |after| && after[i].updateID == id;
      if i < |before| {
        assert before[i] == after[i];
      } else {
        NumberedAt(answer, i - |before|);
        assert answer[i - |before|].updateID == id;
      }
    }
  }

  ghost predicate InAnswer(answer: seq<QueueEntry>, id: int) {
    exists i :: 0 <= i < |answer| && answer[i].updateID == id
  }

  // --- answers ---

  // What a look finds: rows of the bot in ID order, none left out up to the last.
  lemma FoundFacts(bot: string, c: Client, most: int)
    requires QueueOK(bot, c.rows, c.visible)
    ensures var found := Found(bot, c, most);
            && (forall i, j :: 0 <= i < j < |found| ==> found[i].updateID < found[j].updateID)
            && (forall i :: 0 <= i < |found| ==> found[i] in c.rows && found[i].botAccountID == bot)
  {
    var found, t := Found(bot, c, most), TablesOf(c.rows);
    InOrderIsValid(c.rows);
    forall i | 0 <= i < |found|
      ensures found[i] in c.rows && found[i].botAccountID == bot
    {
      PendingExact(t, Everything(bot, most), found[i]);
    }
    if found != [] {
      PendingExact(t, Everything(bot, most), found[0]);
    }
  }

  lemma FoundUpTo(bot: string, c: Client, most: int, r: QueueEntry)
    requires QueueOK(bot, c.rows, c.visible) && Found(bot, c, most) != []
    requires r in c.rows && r.botAccountID == bot
    requires r.updateID <= Found(bot, c, most)[|Found(bot, c, most)| - 1].updateID
    ensures r in Found(bot, c, most)
  {
    InOrderIsValid(c.rows);
    PendingExact(TablesOf(c.rows), Everything(bot, most), r);
  }

  // --- moves keep the invariant ---

  lemma {:induction false} AppearQueue(bot: string, rows: seq<QueueEntry>, visible: map<int, QueueEntry>, e: QueueEntry)
    requires QueueOK(bot, rows, visible) && e.updateID >= 1 && e.updateID !in visible
    requires forall r :: r in rows ==> r.updateID != e.updateID
    ensures QueueOK(bot, Place(rows, e), if e.botAccountID == bot then visible[e.updateID := e] else visible)
  {
    forall i | 0 <= i < |rows|
      ensures rows[i].updateID != e.updateID
    {
      assert rows[i] in rows;
    }
    PlaceInOrder(rows, e);
    forall r
      ensures r in Place(rows, e) <==> r in rows || r == e
    {
      PlaceHas(rows, e, r);
    }
  }

  lemma {:induction false} AppearContents(visible: map<int, QueueEntry>, e: QueueEntry, received: seq<Update>)
    requires ContentsOK(visible, received) && e.updateID !in visible
    ensures ContentsOK(visible[e.updateID := e], received)
    ensures !Got(received, e.updateID)
  {
  }

  lemma AppearKeepsInv(bot: string, c: Client, e: QueueEntry)
    requires ClientInv(bot, c) && Allowed(bot, c, Appear(e))
    ensures ClientInv(bot, Next(bot, c, Appear(e)))
  {
    AppearQueue(bot, c.rows, c.visible, e);
    AppearContents(c.visible, e, c.received);
    forall r | r in Place(c.rows, e)
      ensures r in c.rows || r == e
    {
      PlaceHas(c.rows, e, r);
    }
  }

  lemma {:induction false} RemainingHas(bot: string, c: Client, r: QueueEntry)
    ensures r in Remaining(bot, c) <==> r in c.rows && !(r.botAccountID == bot && r.updateID < Offset(c.received))
  {
    WithoutHas(c.rows, Below(bot, Offset(c.received)), r);
  }

  lemma AcknowledgeKeepsInv(bot: string, c: Client)
    requires ClientInv(bot, c)
    ensures ClientInv(bot, Next(bot, c, Acknowledge))
  {
    WithoutInOrder(c.rows, Below(bot, Offset(c.received)));
    forall r | r in Remaining(bot, c)
      ensures r in c.rows
      ensures r.botAccountID == bot ==> !Got(c.received, r.updateID)
    {
      RemainingHas(bot, c, r);
      if Got(c.received, r.updateID) {
        GotIsBelow(c.received, r.updateID);
      }
    }
  }

  // Receiving rows that were not received before keeps the account of what was received.
  lemma {:induction false} ReceiveKeeps(visible: map<int, QueueEntry>, before: seq<Update>, answer: seq<QueueEntry>)
    requires ContentsOK(visible, before) && NoRepeats(before)
    requires forall i, j :: 0 <= i < j < |answer| ==> answer[i].updateID < answer[j].updateID
    requires forall i :: 0 <= i < |answer| ==>
               answer[i].updateID in visible && visible[answer[i].updateID] == answer[i] && !Got(before, answer[i].updateID)
    ensures ContentsOK(visible, before + Numbered(answer)) && NoRepeats(before + Numbered(answer))
    decreases |answer|
  {
    if answer == [] {
      assert before + Numbered(answer) == before;
    } else {
      var front, last := answer[..|answer| - 1], answer[|answer| - 1];
      var so, u := before + Numbered(front), last.payload.(updateID := last.updateID);
      ReceiveKeeps(visible, before, front);
      GotAfter(before, front, last.updateID);
      ReceiveOne(visible, so, u);
      assert before + Numbered(answer) == so + [u];
    }
  }

  lemma {:induction false} ReceiveOne(visible: map<int, QueueEntry>, before: seq<Update>, u: Update)
    requires ContentsOK(visible, before) && NoRepeats(before) && !Got(before, u.updateID)
    requires u.updateID in visible && u == visible[u.updateID].payload.(updateID := u.updateID)
    ensures ContentsOK(visible, before + [u]) && NoRepeats(before + [u])
  {
  }

  lemma LookKeepsInv(bot: string, c: Client, most: int, lost: bool)
    requires ClientInv(bot, c) && c.asked
    ensures ClientInv(bot, Next(bot, c, Look(most, lost)))
  {
    FoundFacts(bot, c, most);
    ReceiveKeeps(c.visible, c.received, Found(bot, c, most));
  }

  lemma MoveKeepsInv(bot: string, c: Client, m: Move)
    requires ClientInv(bot, c) && Allowed(bot, c, m)
    ensures ClientInv(bot, Next(bot, c, m))
  {
    match m {
      case Appear(e) => AppearKeepsInv(bot, c, e);
      case Acknowledge => AcknowledgeKeepsInv(bot, c);
      case Look(most, lost) => LookKeepsInv(bot, c, most, lost);
      case Others(_) =>
    }
  }

  lemma {:induction false} RunKeepsInv(bot: string, moves: seq<Move>)
    requires Run(bot, moves)
    ensures ClientInv(bot, After(bot, moves))
    decreases |moves|
  {
    if moves != [] {
      RunKeepsInv(bot, moves[..|moves| - 1]);
      MoveKeepsInv(bot, After(bot, moves[..|moves| - 1]), moves[|moves| - 1]);
    }
  }

  // --- which rows are lost ---

  // The row has left the queue and was not received.
  ghost predicate Lost(c: Client, id: int) {
    id in c.visible && c.visible[id] !in c.rows && !Got(c.received, id)
  }

  // A deletion with a larger offset finds the row before any received answer has held it.
  ghost predicate DeletesUnseen(c: Client, m: Move, id: int) {
    m.Acknowledge? && id in c.visible && c.visible[id] in c.rows && id < Offset(c.received) && !Got(c.received, id)
  }

  lemma {:induction false} StepLoses(bot: string, c: Client, m: Move, id: int)
    requires ClientInv(bot, c) && Allowed(bot, c, m)
    ensures Lost(Next(bot, c, m), id) <==> Lost(c, id) || DeletesUnseen(c, m, id)
  {
    match m {
      case Appear(e) => AppearLoses(bot, c, e, id);
      case Acknowledge =>
        if id in c.visible {
          RemainingHas(bot, c, c.visible[id]);
        }
      case Look(most, lost) => LookLoses(bot, c, most, lost, id);
      case Others(_) =>
    }
  }

  lemma {:induction false} AppearLoses(bot: string, c: Client, e: QueueEntry, id: int)
    requires ClientInv(bot, c) && Allowed(bot, c, Appear(e))
    ensures Lost(Next(bot, c, Appear(e)), id) <==> Lost(c, id)
  {
    PlaceHas(c.rows, e, e);
    if id in c.visible {
      PlaceHas(c.rows, e, c.visible[id]);
    }
  }

  lemma {:induction false} LookLoses(bot: string, c: Client, most: int, lost: bool, id: int)
    requires ClientInv(bot, c) && c.asked
    ensures Lost(Next(bot, c, Look(most, lost)), id) <==> Lost(c, id)
  {
    var found := Found(bot, c, most);
    FoundFacts(bot, c, most);
    GotAfter(c.received, found, id);
  }

  // Some move of the run deletes the row unseen.
  ghost predicate DeletedUnseen(bot: string, moves: seq<Move>, id: int) {
    exists k: nat :: DeletesAt(bot, moves, k, id)
  }

  ghost predicate DeletesAt(bot: string, moves: seq<Move>, k: nat, id: int) {
    k < |moves| && DeletesUnseen(After(bot, moves[..k]), moves[k], id)
  }

  lemma {:induction false} DeletesInFront(bot: string, moves: seq<Move>, front: seq<Move>, k: nat, id: int)
    requires k < |front| && front <= moves
    ensures DeletesAt(bot, front, k, id) <==> DeletesAt(bot, moves, k, id)
  {
    assert front[..k] == moves[..k];
  }

  lemma {:induction false} DeletedSnoc(bot: string, moves: seq<Move>, id: int)
    requires moves != []
    ensures var front := moves[..|moves| - 1];
            DeletedUnseen(bot, moves, id)
            <==> DeletedUnseen(bot, front, id) || DeletesUnseen(After(bot, front), moves[|moves| - 1], id)
  {
    var n := |moves| - 1;
    var front := moves[..n];
    if k: nat :| DeletesAt(bot, front, k, id) {
      DeletesInFront(bot, moves, front, k, id);
    }
    if k: nat :| DeletesAt(bot, moves, k, id) {
      if k < n {
        DeletesInFront(bot, moves, front, k, id);
      }
    }
    assert DeletesAt(bot, moves, n, id) <==> DeletesUnseen(After(bot, front), moves[n], id);
  }

  // In every run, whatever order rows become visible in and whatever answers get lost: a row
  // never reaches the client exactly when a deletion with a larger offset finds it before any
  // received answer has held it. What is received is received once.
  lemma {:induction false} LostIff(bot: string, moves: seq<Move>, id: int)
    requires Run(bot, moves)
    ensures Lost(After(bot, moves), id) <==> DeletedUnseen(bot, moves, id)
    ensures NoRepeats(After(bot, moves).received) && ContentsOK(After(bot, moves).visible, After(bot, moves).received)
    decreases |moves|
  {
    RunKeepsInv(bot, moves);
    if moves != [] {
      var front := moves[..|moves| - 1];
      LostIff(bot, front, id);
      RunKeepsInv(bot, front);
      StepLoses(bot, After(bot, front), moves[|moves| - 1], id);
      DeletedSnoc(bot, moves, id);
    }
  }

  // --- rows that appear in time ---

  // Passed and received, or not passed and still in the queue.
  ghost predicate Safe(c: Client, id: int) {
    id in c.visible && if id < Offset(c.received) then Got(c.received, id) else c.visible[id] in c.rows
  }

  lemma {:induction false} StepKeepsSafe(bot: string, c: Client, m: Move, id: int)
    requires ClientInv(bot, c) && Allowed(bot, c, m) && Safe(c, id)
    ensures Safe(Next(bot, c, m), id)
  {
    match m {
      case Appear(e) => PlaceHas(c.rows, e, c.visible[id]);
      case Acknowledge => RemainingHas(bot, c, c.visible[id]);
      case Look(most, lost) => LookKeepsSafe(bot, c, most, lost, id);
      case Others(_) =>
    }
  }

  lemma {:induction false} LookKeepsSafe(bot: string, c: Client, most: int, lost: bool, id: int)
    requires ClientInv(bot, c) && c.asked && Safe(c, id)
    ensures Safe(Next(bot, c, Look(most, lost)), id)
  {
    var found := Found(bot, c, most);
    FoundFacts(bot, c, most);
    OffsetAfter(c.received, found);
    GotAfter(c.received, found, id);
    if found != [] && Offset(c.received) <= id <= found[|found| - 1].updateID {
      FoundUpTo(bot, c, most, c.visible[id]);
      var k :| 0 <= k < |found| && found[k] == c.visible[id];
      assert InAnswer(found, id);
    }
  }

  // The n-th move makes the row visible at or above the offset of that moment.
  ghost predicate AppearsInTime(bot: string, moves: seq<Move>, n: nat, id: int) {
    && n < |moves| && moves[n].Appear?
    && moves[n].e.botAccountID == bot && moves[n].e.updateID == id && id >= Offset(After(bot, moves[..n]).received)
  }

  lemma {:induction false} LastMoveKeepsSafe(bot: string, moves: seq<Move>, id: int)
    requires moves != [] && Run(bot, moves) && Safe(After(bot, moves[..|moves| - 1]), id)
    ensures Safe(After(bot, moves), id)
  {
    var front := moves[..|moves| - 1];
    RunKeepsInv(bot, front);
    StepKeepsSafe(bot, After(bot, front), moves[|moves| - 1], id);
  }

  lemma {:induction false} LastMoveAppears(bot: string, moves: seq<Move>, id: int)
    requires moves != [] && AppearsInTime(bot, moves, |moves| - 1, id)
    ensures Safe(After(bot, moves), id)
  {
    AppearIsSafe(bot, After(bot, moves[..|moves| - 1]), moves[|moves| - 1].e);
  }

  lemma {:induction false} InTimeIsSafe(bot: string, moves: seq<Move>, n: nat, id: int)
    requires Run(bot, moves) && AppearsInTime(bot, moves, n, id)
    ensures Safe(After(bot, moves), id)
    decreases |moves|
  {
    var k := |moves| - 1;
    if n < k {
      StillInTime(bot, moves, n, k, id);
      InTimeIsSafe(bot, moves[..k], n, id);
      LastMoveKeepsSafe(bot, moves, id);
    } else {
      LastMoveAppears(bot, moves, id);
    }
  }

  lemma {:induction false} StillInTime(bot: string, moves: seq<Move>, n: nat, k: nat, id: int)
    requires n < k <= |moves| && AppearsInTime(bot, moves, n, id)
    ensures AppearsInTime(bot, moves[..k], n, id)
  {
    assert moves[..k][..n] == moves[..n];
  }

  // A row that appears in time is never lost: it is received once the client has passed it, and
  // waits in the queue until then. So only late rows are ever lost.
  lemma {:induction false} InTimeNeverLost(bot: string, moves: seq<Move>, n: nat, id: int)
    requires Run(bot, moves) && AppearsInTime(bot, moves, n, id)
    ensures Safe(After(bot, moves), id) && !Lost(After(bot, moves), id)
  {
    InTimeIsSafe(bot, moves, n, id);
  }

  lemma {:induction false} AppearIsSafe(bot: string, c: Client, e: QueueEntry)
    requires e.botAccountID == bot && e.updateID >= Offset(c.received)
    ensures Safe(Next(bot, c, Appear(e)), e.updateID)
  {
    PlaceHas(c.rows, e, e);
  }

  // --- order ---

  ghost predicate Climbing(received: seq<Update>) {
    forall i, j :: 0 <= i < j < |received| ==> received[i].updateID < received[j].updateID
  }

  // A received answer that begins below the offset.
  ghost predicate StepsBack(bot: string, c: Client, m: Move) {
    m.Look? && !m.lost && Found(bot, c, m.most) != [] && Found(bot, c, m.most)[0].updateID < Offset(c.received)
  }

  lemma {:induction false} ClimbingOffset(received: seq<Update>)
    requires Climbing(received)
    ensures Offset(received) == NextOffset(received)
    decreases |received|
  {
    if |received| > 1 {
      ClimbingOffset(received[..|received| - 1]);
    }
  }

  lemma {:induction false} ClimbOn(before: seq<Update>, answer: seq<QueueEntry>)
    requires Climbing(before) && answer != []
    requires forall i, j :: 0 <= i < j < |answer| ==> answer[i].updateID < answer[j].updateID
    ensures Climbing(before + Numbered(answer)) <==> answer[0].updateID >= Offset(before)
  {
    var after := before + Numbered(answer);
    NumberedLength(answer);
    ClimbingOffset(before);
    forall i | 0 <= i < |answer|
      ensures after[|before| + i].updateID == answer[i].updateID
    {
      NumberedAt(answer, i);
    }
    assert after[..|before|] == before;
    JoinClimbs(before, answer, after);
  }

  lemma {:induction false} JoinClimbs(before: seq<Update>, answer: seq<QueueEntry>, after: seq<Update>)
    requires Climbing(before) && answer != [] && |after| == |before| + |answer| && after[..|before|] == before
    requires forall i, j :: 0 <= i < j < |answer| ==> answer[i].updateID < answer[j].updateID
    requires forall i :: 0 <= i < |answer| ==> after[|before| + i].updateID == answer[i].updateID
    ensures Climbing(after) <==> answer[0].updateID >= NextOffset(before)
  {
    assert after[|before|].updateID == answer[0].updateID by {
      assert after[|before| + 0].updateID == answer[0].updateID;
    }
    if before != [] {
      assert after[|before| - 1] == before[|before| - 1];
    }
    if answer[0].updateID >= NextOffset(before) {
      forall i, j | 0 <= i < j < |after|
        ensures after[i].updateID < after[j].updateID
      {
        PairClimbs(before, answer, after, i, j);
      }
    }
  }

  lemma {:induction false} PairClimbs(before: seq<Update>, answer: seq<QueueEntry>, after: seq<Update>, i: nat, j: nat)
    requires Climbing(before) && answer != [] && |after| == |before| + |answer| && after[..|before|] == before
    requires forall i, j :: 0 <= i < j < |answer| ==> answer[i].updateID < answer[j].updateID
    requires forall i :: 0 <= i < |answer| ==> after[|before| + i].updateID == answer[i].updateID
    requires answer[0].updateID >= NextOffset(before) && i < j < |after|
    ensures after[i].updateID < after[j].updateID
  {
    if j < |before| {
      assert after[i] == before[i] && after[j] == before[j];
    } else {
      assert after[|before| + (j - |before|)].updateID == answer[j - |before|].updateID;
      if i < |before| {
        assert after[i] == before[i];
      } else {
        assert after[|before| + (i - |before|)].updateID == answer[i - |before|].updateID;
      }
    }
  }

  ghost predicate EverStepsBack(bot: string, moves: seq<Move>) {
    exists k :: 0 <= k < |moves| && StepsBack(bot, After(bot, moves[..k]), moves[k])
  }

  lemma {:induction false} StepsBackSnoc(bot: string, moves: seq<Move>)
    requires moves != []
    ensures var front := moves[..|moves| - 1];
            EverStepsBack(bot, moves) <==> EverStepsBack(bot, front) || StepsBack(bot, After(bot, front), moves[|moves| - 1])
  {
    var n := |moves| - 1;
    var front := moves[..n];
    forall k | 0 <= k < n
      ensures front[..k] == moves[..k] && front[k] == moves[k]
    {
    }
    if EverStepsBack(bot, front) {
      var k :| 0 <= k < |front| && StepsBack(bot, After(bot, front[..k]), front[k]);
      assert StepsBack(bot, After(bot, moves[..k]), moves[k]);
    }
    if k :| 0 <= k < |moves| && StepsBack(bot, After(bot, moves[..k]), moves[k]) {
      if k < n {
        assert StepsBack(bot, After(bot, front[..k]), front[k]);
      }
    }
  }

  lemma {:induction false} StillClimbing(received: seq<Update>, more: seq<Update>)
    requires Climbing(received + more)
    ensures Climbing(received)
  {
    forall i, j | 0 <= i < j < |received|
      ensures received[i].updateID < received[j].updateID
    {
      assert (received + more)[i] == received[i] && (received + more)[j] == received[j];
    }
  }

  // Each answer is in ID order; all that is received is in ID order exactly when no received
  // answer begins below the offset its call was made with, that is, holds a late row.
  lemma {:induction false} ClimbingIff(bot: string, moves: seq<Move>)
    requires Run(bot, moves)
    ensures Climbing(After(bot, moves).received) <==> !EverStepsBack(bot, moves)
    decreases |moves|
  {
    if moves != [] {
      var front, m := moves[..|moves| - 1], moves[|moves| - 1];
      var c := After(bot, front);
      ClimbingIff(bot, front);
      RunKeepsInv(bot, front);
      StepsBackSnoc(bot, moves);
      if m.Look? && !m.lost && Found(bot, c, m.most) != [] {
        FoundFacts(bot, c, m.most);
        if Climbing(c.received) {
          ClimbOn(c.received, Found(bot, c, m.most));
        } else if Climbing(c.received + Numbered(Found(bot, c, m.most))) {
          StillClimbing(c.received, Numbered(Found(bot, c, m.most)));
        }
      }
    }
  }

  // --- calls and moves ---

  // A GetUpdates call with this offset deletes what Acknowledge deletes, and returns what Look
  // finds in the rows as they stand at the look that ends its waiting.
  lemma CallIsMoves(bot: string, c: Client, t: Tables, most: int, waits: seq<Wait>)
    requires t.rows == c.rows
    ensures BotTables.Acknowledge(t, bot, Offset(c.received)).rows == Next(bot, c, Acknowledge).rows
    ensures var (end, polled) := Looked(BotTables.Acknowledge(t, bot, Offset(c.received)), Everything(bot, most), waits);
            polled.Batch? ==> polled.updates == Numbered(Found(bot, c.(rows := end.rows), most))
  {
    var n := LookedIsFirstFind(BotTables.Acknowledge(t, bot, Offset(c.received)), Everything(bot, most), waits);
  }

  // --- two runs with a late row ---

  function Sample(id: nat): QueueEntry {
    QueueEntry(id, "b", "e", NewMessage, NO_UPDATE, 0, 1, "", 1, 1)
  }

  function Shown(id: nat): Update {
    NO_UPDATE.(updateID := id)
  }

  lemma FindsOne(e: QueueEntry)
    requires e.botAccountID == "b"
    ensures Pending([e], Everything("b", 100)) == [e] && Numbered([e]) == [e.payload.(updateID := e.updateID)]
    ensures Pending([], Everything("b", 100)) == []
    ensures Without([e], Below("b", e.updateID + 1)) == []
  {
    assert [e][..0] == [];
    assert Selected([e][..0], Everything("b", 100)) == [];
    assert Selected([e], Everything("b", 100)) == [e];
  }

  // A move that leads from one known state to another.
  lemma {:induction false} Leads(bot: string, moves: seq<Move>, m: Move, c: Client, next: Client) returns (longer: seq<Move>)
    requires Run(bot, moves) && After(bot, moves) == c && Allowed(bot, c, m) && Next(bot, c, m) == next
    ensures longer == moves + [m] && Run(bot, longer) && After(bot, longer) == next
  {
    longer := moves + [m];
    assert longer[..|moves|] == moves;
  }

  lemma {:induction false} OffsetOfFive()
    ensures Offset([Shown(5)]) == 6
  {
    assert [Shown(5)][..0] == [];
  }

  // The client of the two runs: row 5 was received and deleted, and the second call goes on.
  function Resumed(): Client {
    Client([], map[5 := Sample(5)], [Shown(5)], true)
  }

  lemma {:induction false} FirstCall() returns (moves: seq<Move>)
    ensures Run("b", moves) && After("b", moves) == Client([Sample(5)], map[5 := Sample(5)], [Shown(5)], false)
  {
    var none: seq<Move>, nothing: seq<Update> := [], [];
    var c := Client([Sample(5)], map[5 := Sample(5)], nothing, false);
    moves := Leads("b", none, Appear(Sample(5)), START, c);
    moves := Leads("b", moves, Acknowledge, c, c.(asked := true));
    FindsOne(Sample(5));
    assert nothing + [Shown(5)] == [Shown(5)];
    moves := Leads("b", moves, Look(100, false), c.(asked := true), c.(received := [Shown(5)]));
  }

  lemma {:induction false} SecondCall() returns (moves: seq<Move>)
    ensures Run("b", moves) && After("b", moves) == Resumed()
  {
    moves := FirstCall();
    OffsetOfFive();
    FindsOne(Sample(5));
    moves := Leads("b", moves, Acknowledge, Client([Sample(5)], map[5 := Sample(5)], [Shown(5)], false), Resumed());
  }

  // Row 4 becomes visible after the second call has deleted below 6.
  function Late(): Client {
    Client([Sample(4)], map[5 := Sample(5), 4 := Sample(4)], [Shown(5)], true)
  }

  lemma {:induction false} FourAppears() returns (moves: seq<Move>)
    ensures Run("b", moves) && After("b", moves) == Late()
  {
    moves := SecondCall();
    moves := Leads("b", moves, Appear(Sample(4)), Resumed(), Late());
  }

  // A run in which the next look of the second call returns row 4, after row 5.
  lemma {:induction false} LateRowReceived() returns (moves: seq<Move>)
    ensures Run("b", moves) && After("b", moves).received == [Shown(5), Shown(4)] && !Climbing(After("b", moves).received)
  {
    moves := FourAppears();
    FindsOne(Sample(4));
    var received := [Shown(5)] + [Shown(4)];
    moves := Leads("b", moves, Look(100, false), Late(), Late().(received := received, asked := false));
    assert received[0].updateID == 5 && received[1].updateID == 4;
  }

  // A run in which a third call begins instead, the second having been given up: row 4 is lost.
  lemma {:induction false} LateRowLost() returns (moves: seq<Move>)
    ensures Run("b", moves) && Lost(After("b", moves), 4)
  {
    moves := FourAppears();
    OffsetOfFive();
    RemainingHas("b", Late(), Sample(4));
    moves := Leads("b", moves, Acknowledge, Late(), Next("b", Late(), Acknowledge));
  }
}
