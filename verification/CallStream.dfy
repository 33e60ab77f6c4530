// SubscribeCallEvents: the same shape as the sync stream, but a published event is sent
// as soon as its sequence is larger than the last one, so the stream can jump.
module CallStream {
  import opened Text
  import PageToken

  // The target fields are the trimmed metadata values that address one account or device.
  datatype CallEvent = CallEvent(
    sequence: nat, eventID: string, callID: string, conversationID: string,
    targetAccountID: string, targetDeviceID: string)

  datatype CallRequest = CallRequest(callID: string, conversationID: string, accountID: string, deviceID: string)

  datatype CallSignal = Empty | Published(event: CallEvent)

  // The sequence of the last event, or `start` when there is none.
  function LastOf(start: nat, s: seq<CallEvent>): nat {
    if s == [] then start else s[|s| - 1].sequence
  }

  // Sequences strictly increase from `start`.
  predicate Ascending(start: nat, s: seq<CallEvent>) {
    s == [] || (Ascending(start, s[..|s| - 1]) && LastOf(start, s[..|s| - 1]) < s[|s| - 1].sequence)
  }

  lemma {:induction false} AscendingBounds(start: nat, s: seq<CallEvent>, i: nat)
    requires Ascending(start, s) && i < |s|
    ensures start < s[i].sequence <= LastOf(start, s)
    ensures i + 1 < |s| ==> s[i].sequence < s[i + 1].sequence
  {
    var front := s[..|s| - 1];
    if i < |front| {
      AscendingBounds(start, front, i);
    } else if front != [] {
      AscendingBounds(start, front, |front| - 1);
    }
  }

  // Every pair of positions is in order.
  lemma {:induction false} AscendingPair(start: nat, s: seq<CallEvent>, i: nat, j: nat)
    requires Ascending(start, s) && i < j < |s|
    ensures s[i].sequence < s[j].sequence
  {
    var front := s[..|s| - 1];
    if j < |front| {
      AscendingPair(start, front, i, j);
    } else {
      AscendingBounds(start, front, i);
    }
  }

  // The WHERE clause of EventsAfterSequence: the call when one is named, else the conversation.
  predicate Requested(req: CallRequest, e: CallEvent) {
    if TrimSpace(req.callID) != "" then e.callID == TrimSpace(req.callID)
    else e.conversationID == TrimSpace(req.conversationID)
  }

  // visibleSignalEvent.
  predicate Visible(req: CallRequest, e: CallEvent) {
    && (e.targetAccountID == "" || e.targetAccountID == TrimSpace(req.accountID))
    && (e.targetDeviceID == "" || e.targetDeviceID == TrimSpace(req.deviceID))
  }

  predicate Wanted(req: CallRequest, e: CallEvent) {
    Requested(req, e) && Visible(req, e)
  }

  // Events, from row i of the log on: at most k requested rows are read, and hidden ones
  // are dropped afterwards.
  function PullFrom(log: seq<CallEvent>, req: CallRequest, from: nat, k: nat, i: nat): seq<CallEvent>
    decreases |log| - i
  {
    if i >= |log| || k == 0 then [] else
    if log[i].sequence <= from || !Requested(req, log[i]) then PullFrom(log, req, from, k, i + 1)
    else if Visible(req, log[i]) then [log[i]] + PullFrom(log, req, from, k - 1, i + 1)
    else PullFrom(log, req, from, k - 1, i + 1)
  }

  function Pull(log: seq<CallEvent>, req: CallRequest, from: nat, k: nat): seq<CallEvent> {
    PullFrom(log, req, from, k, 0)
  }

  // The guards of the signal branch.
  predicate SendsDirectly(req: CallRequest, from: nat, signal: CallSignal) {
    && signal.Published?
    && signal.event.sequence > from
    && (req.callID == "" || signal.event.callID == req.callID)
    && (req.conversationID == "" || signal.event.conversationID == req.conversationID)
  }

  // e is the first wanted event of the log after `from`.
  ghost predicate Next(log: seq<CallEvent>, req: CallRequest, from: nat, e: CallEvent) {
    && e in log && Wanted(req, e) && from < e.sequence
    && (forall j :: 0 <= j < |log| && Wanted(req, log[j]) && from < log[j].sequence ==> e.sequence <= log[j].sequence)
  }

  // The batch lists wanted events after `from` without a gap.
  ghost predicate Chain(log: seq<CallEvent>, req: CallRequest, from: nat, batch: seq<CallEvent>)
    decreases |batch|
  {
    batch == [] || (Next(log, req, from, batch[0]) && Chain(log, req, batch[0].sequence, batch[1..]))
  }

  // Row i and the rows after it lie beyond both positions.
  lemma {:induction false} PullShift(log: seq<CallEvent>, req: CallRequest, from: nat, from': nat, k: nat, i: nat)
    requires forall j :: i <= j < |log| ==> log[j].sequence > from && log[j].sequence > from'
    ensures PullFrom(log, req, from, k, i) == PullFrom(log, req, from', k, i)
    decreases |log| - i
  {
    if i < |log| && k > 0 {
      PullShift(log, req, from, from', k, i + 1);
      PullShift(log, req, from, from', k - 1, i + 1);
    }
  }

  lemma RowsAfter(log: seq<CallEvent>, i: nat)
    requires Ascending(0, log) && i < |log|
    ensures forall j :: i < j < |log| ==> log[j].sequence > log[i].sequence
    ensures forall j :: 0 <= j < i ==> log[j].sequence < log[i].sequence
  {
    forall j | 0 <= j < |log| && j != i
      ensures if i < j then log[j].sequence > log[i].sequence else log[j].sequence < log[i].sequence
    {
      if i < j {
        AscendingPair(0, log, i, j);
      } else {
        AscendingPair(0, log, j, i);
      }
    }
  }

  // Nothing wanted after `from` lies before row i.
  ghost predicate NothingBefore(log: seq<CallEvent>, req: CallRequest, from: nat, i: nat)
    requires i <= |log|
  {
    forall j :: 0 <= j < i ==> log[j].sequence <= from || !Wanted(req, log[j])
  }

  lemma FirstIsNext(log: seq<CallEvent>, req: CallRequest, from: nat, i: nat)
    requires Ascending(0, log) && i < |log| && NothingBefore(log, req, from, i)
    requires log[i].sequence > from && Wanted(req, log[i])
    ensures Next(log, req, from, log[i])
    ensures NothingBefore(log, req, log[i].sequence, i + 1)
  {
    RowsAfter(log, i);
  }

  // Reading the log from row i on, nothing wanted having been left behind.
  lemma {:induction false} PullIsChain(log: seq<CallEvent>, req: CallRequest, from: nat, k: nat, i: nat)
    requires Ascending(0, log) && i <= |log| && NothingBefore(log, req, from, i)
    ensures Chain(log, req, from, PullFrom(log, req, from, k, i))
    decreases |log| - i
  {
    if i < |log| && k > 0 {
      var e := log[i];
      if e.sequence > from && Wanted(req, e) {
        var rest := PullFrom(log, req, from, k - 1, i + 1);
        FirstIsNext(log, req, from, i);
        PullIsChain(log, req, e.sequence, k - 1, i + 1);
        RowsAfter(log, i);
        PullShift(log, req, from, e.sequence, k - 1, i + 1);
        assert ([e] + rest)[1..] == rest;
      } else {
        PullIsChain(log, req, from, k, i + 1);
        PullIsChain(log, req, from, k - 1, i + 1);
      }
    }
  }

  // A direct send leaves the open gap (after, upTo) of sequences behind it.
  datatype Jump = Jump(after: nat, upTo: nat)

  predicate Skipped(jumps: seq<Jump>, sequence: nat) {
    jumps != [] &&
    var last := jumps[|jumps| - 1];
    last.after < sequence < last.upTo || Skipped(jumps[..|jumps| - 1], sequence)
  }

  // Jumps lie one after the other between start and from.
  predicate JumpsWithin(jumps: seq<Jump>, start: nat, from: nat) {
    if jumps == [] then start <= from else
    var last := jumps[|jumps| - 1];
    last.after < last.upTo <= from && JumpsWithin(jumps[..|jumps| - 1], start, last.after)
  }

  lemma {:induction false} SkippedBounds(jumps: seq<Jump>, start: nat, from: nat, sequence: nat)
    requires JumpsWithin(jumps, start, from)
    ensures start <= from
    ensures Skipped(jumps, sequence) ==> start < sequence < from
  {
    if jumps != [] {
      SkippedBounds(jumps[..|jumps| - 1], start, jumps[|jumps| - 1].after, sequence);
    }
  }

  // Sequences sent strictly increase up to `from`, and a wanted event of the log in
  // (start, from] is missing exactly when some direct send jumped over it.
  ghost predicate StreamInv(req: CallRequest, start: nat, log: seq<CallEvent>, from: nat, out: seq<CallEvent>,
                            jumps: seq<Jump>) {
    && Ascending(0, log)
    && Ascending(start, out) && from == LastOf(start, out)
    && (forall i :: 0 <= i < |out| ==> out[i] in log)
    && JumpsWithin(jumps, start, from)
    && (forall e :: e in out ==> !Skipped(jumps, e.sequence))
    && (forall e :: e in log && Wanted(req, e) && start < e.sequence <= from ==> e in out || Skipped(jumps, e.sequence))
  }

  lemma StartInv(req: CallRequest, start: nat, log: seq<CallEvent>)
    requires Ascending(0, log)
    ensures StreamInv(req, start, log, start, [], [])
  {
  }

  lemma AppendAscending(start: nat, out: seq<CallEvent>, e: CallEvent)
    requires Ascending(start, out) && LastOf(start, out) < e.sequence
    ensures Ascending(start, out + [e]) && LastOf(start, out + [e]) == e.sequence
  {
    assert (out + [e])[..|out|] == out;
  }

  lemma BacklogSendInv(req: CallRequest, start: nat, log: seq<CallEvent>, from: nat, out: seq<CallEvent>,
                       jumps: seq<Jump>, e: CallEvent)
    requires StreamInv(req, start, log, from, out, jumps) && Next(log, req, from, e)
    ensures StreamInv(req, start, log, e.sequence, out + [e], jumps)
  {
    var out' := out + [e];
    AppendAscending(start, out, e);
    SkippedBounds(jumps, start, from, e.sequence);
    assert out'[|out|] == e;
    forall x | x in log && Wanted(req, x) && start < x.sequence <= e.sequence
      ensures x in out' || Skipped(jumps, x.sequence)
    {
      if x.sequence > from {
        var j :| 0 <= j < |log| && log[j] == x;
        SameSequence(log, x, e);
      }
    }
  }

  lemma SameSequence(log: seq<CallEvent>, a: CallEvent, b: CallEvent)
    requires Ascending(0, log) && a in log && b in log && a.sequence == b.sequence
    ensures a == b
  {
    var i :| 0 <= i < |log| && log[i] == a;
    var j :| 0 <= j < |log| && log[j] == b;
    if i < j {
      AscendingPair(0, log, i, j);
    } else if j < i {
      AscendingPair(0, log, j, i);
    }
  }

  lemma SkippedGrows(jumps: seq<Jump>, j: Jump, sequence: nat)
    ensures Skipped(jumps + [j], sequence) <==> j.after < sequence < j.upTo || Skipped(jumps, sequence)
  {
    assert (jumps + [j])[..|jumps|] == jumps;
  }

  lemma DirectSendInv(req: CallRequest, start: nat, log: seq<CallEvent>, from: nat, out: seq<CallEvent>,
                      jumps: seq<Jump>, e: CallEvent)
    requires StreamInv(req, start, log, from, out, jumps) && e in log && e.sequence > from
    ensures StreamInv(req, start, log, e.sequence, out + [e], jumps + [Jump(from, e.sequence)])
  {
    var j := Jump(from, e.sequence);
    var out', jumps' := out + [e], jumps + [j];
    AppendAscending(start, out, e);
    assert jumps'[..|jumps|] == jumps;
    assert out'[|out|] == e;
    forall x | x in out'
      ensures !Skipped(jumps', x.sequence)
    {
      SkippedGrows(jumps, j, x.sequence);
      SkippedBounds(jumps, start, from, x.sequence);
      if x in out {
        var i :| 0 <= i < |out| && out[i] == x;
        AscendingBounds(start, out, i);
      }
    }
    forall x | x in log && Wanted(req, x) && start < x.sequence <= e.sequence
      ensures x in out' || Skipped(jumps', x.sequence)
    {
      SkippedGrows(jumps, j, x.sequence);
      if x.sequence == e.sequence {
        SameSequence(log, x, e);
      }
    }
  }

  lemma GrowInv(req: CallRequest, start: nat, log: seq<CallEvent>, log': seq<CallEvent>, from: nat,
                out: seq<CallEvent>, jumps: seq<Jump>)
    requires StreamInv(req, start, log, from, out, jumps) && Ascending(0, log') && log <= log'
    ensures StreamInv(req, start, log', from, out, jumps)
  {
    if out != [] {
      var k :| 0 <= k < |log| && log[k] == out[|out| - 1];
      assert log'[k] == out[|out| - 1];
      forall x | x in log' && x.sequence <= from
        ensures x in log
      {
        var i :| 0 <= i < |log'| && log'[i] == x;
        if k < i {
          AscendingPair(0, log', k, i);
        }
        assert log[i] == x;
      }
    }
  }

  lemma {:induction false} AscendingPrefix(log: seq<CallEvent>, log': seq<CallEvent>)
    requires Ascending(0, log') && log <= log'
    ensures Ascending(0, log)
    decreases |log'|
  {
    if |log| < |log'| {
      AscendingPrefix(log, log'[..|log'| - 1]);
    } else {
      assert log == log';
    }
  }

  // --- the call against an arbitrary environment ---

  datatype Stimulus = Done | Reconcile | Received(signal: CallSignal)

  datatype Turn = Turn(pullLog: seq<CallEvent>, stimulus: Stimulus, wakeLog: seq<CallEvent>)

  ghost predicate ValidScript(script: seq<Turn>) {
    && (forall i :: 0 <= i < |script| ==>
          && Ascending(0, script[i].wakeLog) && script[i].pullLog <= script[i].wakeLog
          && (script[i].stimulus.Received? && script[i].stimulus.signal.Published? ==>
                script[i].stimulus.signal.event in script[i].wakeLog))
    && (forall i :: 0 <= i && i + 1 < |script| ==> script[i].wakeLog <= script[i + 1].pullLog)
  }

  // A call under way: what it has sent, where it stands, how many sends will still succeed,
  // and the jumps of its direct sends.
  datatype Call = Call(out: seq<CallEvent>, from: nat, left: nat, open: bool, jumps: seq<Jump>)

  // The page is sent event by event until a send fails.
  function AfterSends(c: Call, events: seq<CallEvent>): Call {
    if |events| > c.left
    then Call(c.out + events[..c.left], LastOf(c.from, events[..c.left]), 0, false, c.jumps)
    else Call(c.out + events, LastOf(c.from, events), c.left - |events|, true, c.jumps)
  }

  // The select of a turn whose page was empty.
  function AfterStimulus(req: CallRequest, c: Call, stimulus: Stimulus): Call {
    match stimulus
    case Done => c.(open := false)
    case Reconcile => c
    case Received(signal) =>
      if !SendsDirectly(req, c.from, signal) then c
      else if c.left == 0 then c.(open := false)
      else
        var e := signal.event;
        Call(c.out + [e], e.sequence, c.left - 1, true, c.jumps + [Jump(c.from, e.sequence)])
  }

  function AfterTurn(req: CallRequest, c: Call, turn: Turn): Call {
    var events := Pull(turn.pullLog, req, c.from, PageToken.DEFAULT_PAGE_SIZE);
    if events != [] then AfterSends(c, events) else AfterStimulus(req, c, turn.stimulus)
  }

  // What a call amounts to.
  function Streamed(req: CallRequest, start: nat, script: seq<Turn>, budget: nat): Call {
    if script == [] then Call([], start, budget, true, []) else
    var c := Streamed(req, start, script[..|script| - 1], budget);
    if !c.open then c else AfterTurn(req, c, script[|script| - 1])
  }

  lemma {:induction false} ClosedForGood(req: CallRequest, start: nat, script: seq<Turn>, budget: nat, i: nat)
    requires i <= |script| && !Streamed(req, start, script[..i], budget).open
    ensures Streamed(req, start, script, budget) == Streamed(req, start, script[..i], budget)
    decreases |script|
  {
    if i == |script| {
      assert script[..i] == script;
    } else {
      var front := script[..|script| - 1];
      assert front[..i] == script[..i];
      ClosedForGood(req, start, front, budget, i);
    }
  }

  // The backlog branch.
  method SendBacklog(c: Call, events: seq<CallEvent>) returns (next: Call)
    requires c.open
    ensures next == AfterSends(c, events)
  {
    next := c;
    for i := 0 to |events|
      invariant i <= c.left && next == AfterSends(c, events[..i])
    {
      if next.left == 0 {
        return next.(open := false);
      }
      assert events[..i + 1] == events[..i] + [events[i]];
      next := next.(out := next.out + [events[i]], from := events[i].sequence, left := next.left - 1);
    }
    assert events[..|events|] == events;
  }

  // One turn of the loop.
  method TakeTurn(req: CallRequest, c: Call, turn: Turn) returns (next: Call)
    requires c.open
    ensures next == AfterTurn(req, c, turn)
  {
    var events := Pull(turn.pullLog, req, c.from, PageToken.DEFAULT_PAGE_SIZE);
    if |events| > 0 {
      next := SendBacklog(c, events);
      return;
    }
    next := c;
    match turn.stimulus {
      case Done => next := c.(open := false);
      case Reconcile =>
      case Received(signal) =>
        if signal.Empty? || signal.event.sequence <= c.from {
          return;
        }
        var e := signal.event;
        if req.callID != "" && e.callID != req.callID {
          return;
        }
        if req.conversationID != "" && e.conversationID != req.conversationID {
          return;
        }
        if c.left == 0 {
          return c.(open := false);
        }
        next := Call(c.out + [e], e.sequence, c.left - 1, true, c.jumps + [Jump(c.from, e.sequence)]);
    }
  }

  // The whole call; a send fails once the stream has taken `budget` events.
  method SubscribeCallEvents(req: CallRequest, start: nat, script: seq<Turn>, budget: nat) returns (end: Call)
    ensures end == Streamed(req, start, script, budget)
  {
    end := Call([], start, budget, true, []);
    var i := 0;
    while i < |script| && end.open
      invariant 0 <= i <= |script|
      invariant end == Streamed(req, start, script[..i], budget)
    {
      assert script[..i + 1][..i] == script[..i];
      end := TakeTurn(req, end, script[i]);
      i := i + 1;
    }
    if !end.open {
      ClosedForGood(req, start, script, budget, i);
    } else {
      assert script[..i] == script;
    }
  }

  // --- what a call keeps ---

  ghost predicate CallInv(req: CallRequest, start: nat, log: seq<CallEvent>, c: Call) {
    StreamInv(req, start, log, c.from, c.out, c.jumps)
  }

  lemma {:induction false} SendsKeepInv(req: CallRequest, start: nat, log: seq<CallEvent>, from: nat, out: seq<CallEvent>,
                                        jumps: seq<Jump>, events: seq<CallEvent>)
    requires StreamInv(req, start, log, from, out, jumps) && Chain(log, req, from, events)
    ensures StreamInv(req, start, log, LastOf(from, events), out + events, jumps)
    decreases |events|
  {
    if events == [] {
      assert out + events == out;
    } else {
      var e, rest := events[0], events[1..];
      BacklogSendInv(req, start, log, from, out, jumps, e);
      SendsKeepInv(req, start, log, e.sequence, out + [e], jumps, rest);
      FirstThenRest(from, out, e, rest, events);
    }
  }

  lemma FirstThenRest(from: nat, out: seq<CallEvent>, e: CallEvent, rest: seq<CallEvent>, events: seq<CallEvent>)
    requires events == [e] + rest
    ensures (out + [e]) + rest == out + events
    ensures LastOf(e.sequence, rest) == LastOf(from, events)
  {
  }

  lemma {:induction false} ChainPrefix(log: seq<CallEvent>, req: CallRequest, from: nat, events: seq<CallEvent>, k: nat)
    requires Chain(log, req, from, events) && k <= |events|
    ensures Chain(log, req, from, events[..k])
    decreases k
  {
    if k > 0 {
      ChainPrefix(log, req, events[0].sequence, events[1..], k - 1);
      assert events[..k][1..] == events[1..][..k - 1];
    }
  }

  // The log as the last turn left it.
  function LogAt(script: seq<Turn>): seq<CallEvent> {
    if script == [] then [] else script[|script| - 1].wakeLog
  }

  lemma {:induction false} PageKeepsInv(req: CallRequest, start: nat, log: seq<CallEvent>, c: Call, events: seq<CallEvent>)
    requires CallInv(req, start, log, c) && Chain(log, req, c.from, events)
    ensures CallInv(req, start, log, AfterSends(c, events))
  {
    if |events| > c.left {
      ChainPrefix(log, req, c.from, events, c.left);
      SendsKeepInv(req, start, log, c.from, c.out, c.jumps, events[..c.left]);
    } else {
      SendsKeepInv(req, start, log, c.from, c.out, c.jumps, events);
    }
  }

  lemma {:induction false} StimulusKeepsInv(req: CallRequest, start: nat, log: seq<CallEvent>, c: Call, stimulus: Stimulus)
    requires CallInv(req, start, log, c)
    requires stimulus.Received? && stimulus.signal.Published? ==> stimulus.signal.event in log
    ensures CallInv(req, start, log, AfterStimulus(req, c, stimulus))
  {
    if stimulus.Received? && SendsDirectly(req, c.from, stimulus.signal) {
      DirectSendInv(req, start, log, c.from, c.out, c.jumps, stimulus.signal.event);
    }
  }

  lemma {:induction false} CallInvGrows(req: CallRequest, start: nat, log: seq<CallEvent>, log': seq<CallEvent>, c: Call)
    requires CallInv(req, start, log, c) && Ascending(0, log') && log <= log'
    ensures CallInv(req, start, log', c)
  {
    GrowInv(req, start, log, log', c.from, c.out, c.jumps);
  }

  lemma {:induction false} TurnKeepsInv(req: CallRequest, start: nat, c: Call, turn: Turn)
    requires CallInv(req, start, turn.pullLog, c)
    requires Ascending(0, turn.wakeLog) && turn.pullLog <= turn.wakeLog
    requires turn.stimulus.Received? && turn.stimulus.signal.Published? ==> turn.stimulus.signal.event in turn.wakeLog
    ensures CallInv(req, start, turn.wakeLog, AfterTurn(req, c, turn))
  {
    var events := Pull(turn.pullLog, req, c.from, PageToken.DEFAULT_PAGE_SIZE);
    if events != [] {
      PullIsChain(turn.pullLog, req, c.from, PageToken.DEFAULT_PAGE_SIZE, 0);
      PageKeepsInv(req, start, turn.pullLog, c, events);
      CallInvGrows(req, start, turn.pullLog, turn.wakeLog, AfterSends(c, events));
    } else {
      CallInvGrows(req, start, turn.pullLog, turn.wakeLog, c);
      StimulusKeepsInv(req, start, turn.wakeLog, c, turn.stimulus);
    }
  }

  lemma LogsGrow(script: seq<Turn>)
    requires ValidScript(script) && script != []
    ensures var front, turn := script[..|script| - 1], script[|script| - 1];
            && ValidScript(front) && Ascending(0, turn.wakeLog) && turn.pullLog <= turn.wakeLog
            && LogAt(front) <= turn.pullLog
            && (turn.stimulus.Received? && turn.stimulus.signal.Published? ==> turn.stimulus.signal.event in turn.wakeLog)
  {
    var n := |script| - 1;
    if n > 0 {
      assert script[n - 1 + 1] == script[n];
      assert script[..n][n - 1] == script[n - 1];
    }
  }

  // Whatever the environment does and wherever a send fails: what was sent are log events in
  // strictly ascending order, and every wanted event up to the position is among them or
  // strictly inside the jump of a direct send.
  lemma {:induction false} CallKeepsInv(req: CallRequest, start: nat, script: seq<Turn>, budget: nat)
    requires ValidScript(script)
    ensures CallInv(req, start, LogAt(script), Streamed(req, start, script, budget))
    decreases |script|
  {
    if script == [] {
      StartInv(req, start, []);
    } else {
      var front, turn := script[..|script| - 1], script[|script| - 1];
      var c := Streamed(req, start, front, budget);
      CallKeepsInv(req, start, front, budget);
      LogsGrow(script);
      AscendingPrefix(turn.pullLog, turn.wakeLog);
      GrowInv(req, start, LogAt(front), turn.pullLog, c.from, c.out, c.jumps);
      if c.open {
        TurnKeepsInv(req, start, c, turn);
      } else {
        GrowInv(req, start, turn.pullLog, turn.wakeLog, c.from, c.out, c.jumps);
      }
    }
  }

  // The stream is gap-free exactly when no direct send jumps over a wanted event.
  lemma GapFreeIffNoJumpOverWanted(req: CallRequest, start: nat, log: seq<CallEvent>, from: nat,
                                   out: seq<CallEvent>, jumps: seq<Jump>)
    requires StreamInv(req, start, log, from, out, jumps)
    ensures (forall e :: e in log && Wanted(req, e) && start < e.sequence <= from ==> e in out)
        <==> (forall e :: e in log && Wanted(req, e) ==> !Skipped(jumps, e.sequence))
  {
    forall e | e in log && Wanted(req, e)
      ensures Skipped(jumps, e.sequence) ==> start < e.sequence <= from && e !in out
    {
      SkippedBounds(jumps, start, from, e.sequence);
    }
  }

  // --- the same over scripts: conditions on the signals and logs a call meets ---

  // Turn i is taken and sends its signal's event directly.
  predicate SendsSignal(req: CallRequest, start: nat, script: seq<Turn>, budget: nat, i: nat)
    requires i < |script|
  {
    var c, turn := Streamed(req, start, script[..i], budget), script[i];
    && c.open && c.left > 0
    && Pull(turn.pullLog, req, c.from, PageToken.DEFAULT_PAGE_SIZE) == []
    && turn.stimulus.Received? && SendsDirectly(req, c.from, turn.stimulus.signal)
  }

  // Turn i passes over this sequence with a direct send.
  predicate InGap(req: CallRequest, start: nat, script: seq<Turn>, budget: nat, i: nat, sequence: nat)
    requires i < |script|
  {
    SendsSignal(req, start, script, budget, i)
    && Streamed(req, start, script[..i], budget).from < sequence < script[i].stimulus.signal.event.sequence
  }

  ghost predicate SomeGap(req: CallRequest, start: nat, script: seq<Turn>, budget: nat, n: nat, sequence: nat)
    requires n <= |script|
  {
    exists i :: 0 <= i < n && InGap(req, start, script, budget, i, sequence)
  }

  // The jumps of a call are those of its direct sends.
  lemma {:induction false} SkippedIffInGap(req: CallRequest, start: nat, script: seq<Turn>, budget: nat, n: nat,
                                           sequence: nat)
    requires n <= |script|
    ensures Skipped(Streamed(req, start, script[..n], budget).jumps, sequence)
            <==> SomeGap(req, start, script, budget, n, sequence)
    decreases n
  {
    if n > 0 {
      SkippedIffInGap(req, start, script, budget, n - 1, sequence);
      TurnSkips(req, start, script, budget, n - 1, sequence);
      GapSplits(req, start, script, budget, n - 1, sequence);
    }
  }

  lemma GapSplits(req: CallRequest, start: nat, script: seq<Turn>, budget: nat, n: nat, sequence: nat)
    requires n < |script|
    ensures SomeGap(req, start, script, budget, n + 1, sequence)
            <==> SomeGap(req, start, script, budget, n, sequence) || InGap(req, start, script, budget, n, sequence)
  {
  }

  // One more turn passes over what its own direct send passes over.
  lemma TurnSkips(req: CallRequest, start: nat, script: seq<Turn>, budget: nat, n: nat, sequence: nat)
    requires n < |script|
    ensures Skipped(Streamed(req, start, script[..n + 1], budget).jumps, sequence)
            <==> Skipped(Streamed(req, start, script[..n], budget).jumps, sequence)
                 || InGap(req, start, script, budget, n, sequence)
  {
    assert script[..n + 1][..n] == script[..n];
    var c, turn := Streamed(req, start, script[..n], budget), script[n];
    if SendsSignal(req, start, script, budget, n) {
      SkippedGrows(c.jumps, Jump(c.from, turn.stimulus.signal.event.sequence), sequence);
    }
  }

  lemma {:induction false} LogsNested(script: seq<Turn>, i: nat)
    requires ValidScript(script) && i < |script|
    ensures script[i].wakeLog <= LogAt(script) && Ascending(0, LogAt(script))
    decreases |script|
  {
    LogsGrow(script);
    if i < |script| - 1 {
      LogsNested(script[..|script| - 1], i);
    }
  }

  // An event before one that is in the shorter log is in it too.
  lemma EarlierIsOlder(log: seq<CallEvent>, longer: seq<CallEvent>, e: CallEvent, x: CallEvent)
    requires log <= longer && Ascending(0, longer) && e in log && x in longer && x.sequence < e.sequence
    ensures x in log
  {
    var k :| 0 <= k < |log| && log[k] == e;
    var j :| 0 <= j < |longer| && longer[j] == x;
    assert longer[k] == e;
    if j > k {
      AscendingPair(0, longer, k, j);
    }
    assert log[j] == x;
  }

  // When turn i sends its signal's event, no wanted event that is in the log by then lies
  // between the position and it.
  ghost predicate JumpsOverNothing(req: CallRequest, start: nat, script: seq<Turn>, budget: nat, i: nat)
    requires i < |script|
  {
    forall x :: x in script[i].wakeLog && Wanted(req, x) ==> !InGap(req, start, script, budget, i, x.sequence)
  }

  ghost predicate GapFree(req: CallRequest, start: nat, log: seq<CallEvent>, c: Call) {
    forall e :: e in log && Wanted(req, e) && start < e.sequence <= c.from ==> e in c.out
  }

  // A call is gap-free exactly when none of its direct sends finds a wanted event between its
  // position and the event sent.
  lemma GapFreeIff(req: CallRequest, start: nat, script: seq<Turn>, budget: nat)
    requires ValidScript(script)
    ensures GapFree(req, start, LogAt(script), Streamed(req, start, script, budget))
            <==> forall i :: 0 <= i < |script| ==> JumpsOverNothing(req, start, script, budget, i)
  {
    var c, log := Streamed(req, start, script, budget), LogAt(script);
    CallKeepsInv(req, start, script, budget);
    GapFreeIffNoJumpOverWanted(req, start, log, c.from, c.out, c.jumps);
    assert script[..|script|] == script;
    if forall i :: 0 <= i < |script| ==> JumpsOverNothing(req, start, script, budget, i) {
      forall x | x in log && Wanted(req, x)
        ensures !Skipped(c.jumps, x.sequence)
      {
        SkippedIffInGap(req, start, script, budget, |script|, x.sequence);
        if i :| 0 <= i < |script| && InGap(req, start, script, budget, i, x.sequence) {
          assert JumpsOverNothing(req, start, script, budget, i);
          LogsNested(script, i);
          EarlierIsOlder(script[i].wakeLog, log, script[i].stimulus.signal.event, x);
        }
      }
    }
    if GapFree(req, start, log, c) {
      forall i | 0 <= i < |script|
        ensures JumpsOverNothing(req, start, script, budget, i)
      {
        LogsNested(script, i);
        forall x | x in script[i].wakeLog && Wanted(req, x)
          ensures !InGap(req, start, script, budget, i, x.sequence)
        {
          assert x in log;
          SkippedIffInGap(req, start, script, budget, |script|, x.sequence);
        }
      }
    }
  }

  // --- what reaches the subscriber ---

  predicate AllWanted(req: CallRequest, events: seq<CallEvent>) {
    forall i :: 0 <= i < |events| ==> Wanted(req, events[i])
  }

  lemma {:induction false} PagesAreWanted(log: seq<CallEvent>, req: CallRequest, from: nat, k: nat, i: nat)
    ensures AllWanted(req, PullFrom(log, req, from, k, i))
    decreases |log| - i
  {
    if i < |log| && k > 0 {
      if log[i].sequence <= from || !Requested(req, log[i]) {
        PagesAreWanted(log, req, from, k, i + 1);
      } else {
        PagesAreWanted(log, req, from, k - 1, i + 1);
      }
    }
  }

  lemma TurnSends(req: CallRequest, start: nat, script: seq<Turn>, budget: nat, n: nat)
    requires n < |script|
    ensures var before, after := Streamed(req, start, script[..n], budget).out, Streamed(req, start, script[..n + 1], budget).out;
            AllWanted(req, after) <==>
              AllWanted(req, before) && (SendsSignal(req, start, script, budget, n) ==> Wanted(req, script[n].stimulus.signal.event))
  {
    assert script[..n + 1][..n] == script[..n];
    var c, turn := Streamed(req, start, script[..n], budget), script[n];
    var events := Pull(turn.pullLog, req, c.from, PageToken.DEFAULT_PAGE_SIZE);
    PagesAreWanted(turn.pullLog, req, c.from, PageToken.DEFAULT_PAGE_SIZE, 0);
    if c.open && events != [] {
      WantedJoin(req, c.out, if |events| > c.left then events[..c.left] else events);
    } else if SendsSignal(req, start, script, budget, n) {
      WantedJoin(req, c.out, [turn.stimulus.signal.event]);
      assert [turn.stimulus.signal.event][0] == turn.stimulus.signal.event;
    }
  }

  lemma WantedJoin(req: CallRequest, a: seq<CallEvent>, b: seq<CallEvent>)
    ensures AllWanted(req, a + b) <==> AllWanted(req, a) && AllWanted(req, b)
  {
    if AllWanted(req, a + b) {
      forall i | 0 <= i < |a|
        ensures Wanted(req, a[i])
      {
        assert (a + b)[i] == a[i];
      }
      forall i | 0 <= i < |b|
        ensures Wanted(req, b[i])
      {
        assert (a + b)[|a| + i] == b[i];
      }
    }
  }

  ghost predicate SignalsWanted(req: CallRequest, start: nat, script: seq<Turn>, budget: nat, n: nat)
    requires n <= |script|
  {
    forall i :: 0 <= i < n ==> (SendsSignal(req, start, script, budget, i) ==> Wanted(req, script[i].stimulus.signal.event))
  }

  // The direct path does not ask whom an event is addressed to, as the log does: everything sent
  // is wanted exactly when every directly sent event is.
  lemma {:induction false} AllWantedIff(req: CallRequest, start: nat, script: seq<Turn>, budget: nat, n: nat)
    requires n <= |script|
    ensures AllWanted(req, Streamed(req, start, script[..n], budget).out) <==> SignalsWanted(req, start, script, budget, n)
    decreases n
  {
    if n > 0 {
      AllWantedIff(req, start, script, budget, n - 1);
      TurnSends(req, start, script, budget, n - 1);
    }
  }

  // For trimmed identifiers, at least one of them given, a direct send lacks nothing but the
  // check of the addressee.
  lemma DirectWantedIffVisible(req: CallRequest, from: nat, signal: CallSignal)
    requires TrimSpace(req.callID) == req.callID && TrimSpace(req.conversationID) == req.conversationID
    requires req.callID != "" || req.conversationID != ""
    requires SendsDirectly(req, from, signal)
    ensures Wanted(req, signal.event) <==> Visible(req, signal.event)
  {
  }

  // The weaker guard does lose events: with an empty log read, two events commit, and the signal
  // of the second arrives first. The call sends it and is past the first.
  lemma JumpLosesAnEvent()
    ensures var req := CallRequest("c", "", "a", "d");
            var e1, e2 := CallEvent(1, "x", "c", "v", "", ""), CallEvent(2, "y", "c", "v", "", "");
            var script := [Turn([], Received(Published(e2)), [e1, e2])];
            && ValidScript(script)
            && Streamed(req, 0, script, 1).out == [e2] && Streamed(req, 0, script, 1).from == 2
            && Wanted(req, e1) && !GapFree(req, 0, LogAt(script), Streamed(req, 0, script, 1))
  {
    var req := CallRequest("c", "", "a", "d");
    var e1, e2 := CallEvent(1, "x", "c", "v", "", ""), CallEvent(2, "y", "c", "v", "", "");
    var script := [Turn([], Received(Published(e2)), [e1, e2])];
    assert Trimmed("c") && TrimSpace("c") == "c" by { TrimmedIffFixed("c"); }
    assert [e1, e2][..1] == [e1] && [e1][..0] == [];
    assert Ascending(0, [e1, e2]) by {
      assert Ascending(0, [e1]);
    }
    assert script[..0] == [];
    assert Streamed(req, 0, script[..0], 1) == Call([], 0, 1, true, []);
    assert Pull([], req, 0, PageToken.DEFAULT_PAGE_SIZE) == [];
    assert [] + [e2] == [e2];
    assert e1 in LogAt(script) && e1 !in [e2];
  }

  // --- the page limit is applied before hidden events are dropped ---

  // Requested rows after `from`, hidden ones included, from row i on.
  function RequestedRows(log: seq<CallEvent>, req: CallRequest, from: nat, i: nat): seq<CallEvent>
    decreases |log| - i
  {
    if i >= |log| then [] else
    if log[i].sequence > from && Requested(req, log[i]) then [log[i]] + RequestedRows(log, req, from, i + 1)
    else RequestedRows(log, req, from, i + 1)
  }

  predicate AllHidden(req: CallRequest, rows: seq<CallEvent>, k: nat) {
    rows == [] || k == 0 || (!Visible(req, rows[0]) && AllHidden(req, rows[1..], k - 1))
  }

  // A page comes back empty exactly when its first k requested rows are all hidden,
  // whatever follows them.
  lemma {:induction false} EmptyPageIffAllHidden(log: seq<CallEvent>, req: CallRequest, from: nat, k: nat, i: nat)
    ensures PullFrom(log, req, from, k, i) == [] <==> AllHidden(req, RequestedRows(log, req, from, i), k)
    decreases |log| - i
  {
    if i < |log| && k > 0 {
      EmptyPageIffAllHidden(log, req, from, k, i + 1);
      EmptyPageIffAllHidden(log, req, from, k - 1, i + 1);
      var rows := RequestedRows(log, req, from, i);
      if log[i].sequence > from && Requested(req, log[i]) {
        assert rows[1..] == RequestedRows(log, req, from, i + 1);
      }
    }
  }

  function Hidden(n: nat): CallEvent {
    CallEvent(n, "h", "c", "v", "other", "")
  }

  function HiddenRun(n: nat): seq<CallEvent> {
    seq(n, i requires 0 <= i => Hidden(i + 1))
  }

  lemma {:induction false} HiddenRunAscends(n: nat)
    ensures Ascending(0, HiddenRun(n)) && LastOf(0, HiddenRun(n)) == n
  {
    if n > 0 {
      HiddenRunAscends(n - 1);
      assert HiddenRun(n)[..n - 1] == HiddenRun(n - 1);
    }
  }

  const OBSERVER := CallRequest("c", "", "a", "d")

  lemma ObserverTrims()
    ensures TrimSpace("c") == "c" && TrimSpace("a") == "a" && TrimSpace("d") == "d"
  {
    TrimmedIffFixed("c");
    TrimmedIffFixed("a");
    TrimmedIffFixed("d");
  }

  lemma HiddenRow(n: nat)
    ensures Requested(OBSERVER, Hidden(n)) && !Visible(OBSERVER, Hidden(n))
  {
    ObserverTrims();
  }

  lemma {:induction false} AllRequested(log: seq<CallEvent>, req: CallRequest, from: nat, i: nat)
    requires i <= |log| && forall j :: i <= j < |log| ==> log[j].sequence > from && Requested(req, log[j])
    ensures RequestedRows(log, req, from, i) == log[i..]
    decreases |log| - i
  {
    if i < |log| {
      AllRequested(log, req, from, i + 1);
    }
  }

  lemma {:induction false} HiddenPrefix(req: CallRequest, rows: seq<CallEvent>, k: nat)
    requires k <= |rows| && forall j :: 0 <= j < k ==> !Visible(req, rows[j])
    ensures AllHidden(req, rows, k)
    decreases k
  {
    if k > 0 {
      HiddenPrefix(req, rows[1..], k - 1);
    }
  }

  // The observer requests all of a run of hidden rows and the row behind it, and sees the last.
  lemma {:induction false} RunRequested(log: seq<CallEvent>, k: nat)
    requires log == HiddenRun(k) + [CallEvent(k + 1, "x", "c", "v", "", "")]
    ensures |log| == k + 1
    ensures forall j :: 0 <= j < |log| ==> log[j].sequence > 0 && Requested(OBSERVER, log[j])
    ensures forall j :: 0 <= j < k ==> !Visible(OBSERVER, log[j])
    ensures Wanted(OBSERVER, log[k])
  {
    HiddenRunAscends(k);
    ObserverTrims();
    forall j | 0 <= j < |log|
      ensures log[j].sequence > 0 && Requested(OBSERVER, log[j])
      ensures j < k ==> !Visible(OBSERVER, log[j])
    {
      HiddenRow(j + 1);
    }
  }

  // A page of rows addressed to someone else stalls the backlog although a wanted event
  // follows: the page is empty, so the position does not move and the next read is the same.
  lemma {:induction false} HiddenPageStalls(k: nat)
    ensures var e := CallEvent(k + 1, "x", "c", "v", "", "");
            var log := HiddenRun(k) + [e];
            Ascending(0, log) && e in log && Wanted(OBSERVER, e) && Pull(log, OBSERVER, 0, k) == []
  {
    var e := CallEvent(k + 1, "x", "c", "v", "", "");
    var log := HiddenRun(k) + [e];
    HiddenRunAscends(k);
    AppendAscending(0, HiddenRun(k), e);
    RunRequested(log, k);
    assert log[k] == e;
    AllRequested(log, OBSERVER, 0, 0);
    assert log[0..] == log;
    HiddenPrefix(OBSERVER, log, k);
    EmptyPageIffAllHidden(log, OBSERVER, 0, k, 0);
  }
}
