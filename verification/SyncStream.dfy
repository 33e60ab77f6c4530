// SubscribeEvents: durable-log replay mixed with a lossy in-process notifier.
// The stream is a transition system whose steps interleave with log appends and
// with publishers that may drop, delay, reorder and duplicate signals.
module SyncStream {
  import opened Text
  import opened EventLog
  import PageToken

  const CHANNEL_CAPACITY: nat := 32

  // A syncSignal: a bare wake-up, a durable event, or an event outside the log.
  datatype Signal = Wake | Durable(event: Event) | Synthetic(event: Event)

  datatype Sent = Sent(event: Event, synthetic: bool)

  function DurableEvents(out: seq<Sent>): seq<Event> {
    if out == [] then [] else
    var last := out[|out| - 1];
    var r := DurableEvents(out[..|out| - 1]);
    if last.synthetic then r else r + [last.event]
  }

  lemma DurableEventsAppend(out: seq<Sent>, s: Sent)
    ensures DurableEvents(out + [s]) == if s.synthetic then DurableEvents(out) else DurableEvents(out) + [s.event]
  {
    assert (out + [s])[..|out|] == out;
  }

  // syncConversationAllowed.
  predicate ConversationAllowed(req: Request, conversationID: string) {
    req.conversationIDs == [] || exists c :: c in req.conversationIDs && TrimSpace(c) == TrimSpace(conversationID)
  }

  method SyncConversationAllowed(conversationID: string, allowed: seq<string>) returns (ok: bool)
    ensures ok == ConversationAllowed(Request(allowed, false, false), conversationID)
  {
    if |allowed| == 0 {
      return true;
    }
    var trimmed := TrimSpace(conversationID);
    for i := 0 to |allowed|
      invariant forall k :: 0 <= k < i ==> TrimSpace(allowed[k]) != trimmed
    {
      if TrimSpace(allowed[i]) == trimmed {
        return true;
      }
    }
    return false;
  }

  // The direct-send filter and the log filter agree on stored events, except that a
  // filter made only of blank identifiers selects everything in the log and nothing directly.
  lemma AllowedMatchesRequested(req: Request, e: Event)
    requires Stored(e)
    ensures ConversationAllowed(req, e.conversationID) ==> Requested(req, e)
    ensures req.conversationIDs == [] || RequestedIDs(req) != {} ==>
              (ConversationAllowed(req, e.conversationID) <==> Requested(req, e))
    ensures req.conversationIDs != [] && RequestedIDs(req) == {} ==>
              Requested(req, e) && !ConversationAllowed(req, e.conversationID)
  {
    TrimmedIffFixed(e.conversationID);
    if ConversationAllowed(req, e.conversationID) && req.conversationIDs != [] {
      var c :| c in req.conversationIDs && TrimSpace(c) == e.conversationID;
      assert TrimSpace(c) in RequestedIDs(req);
    }
  }

  // fromSequence+1 in uint64 arithmetic.
  function NextSequence(from: nat): nat {
    (from + 1) % TWO_64
  }

  // The guards of tryDirectSyncSignal that let a signal through.
  predicate SendsDirectly(req: Request, from: nat, signal: Signal) {
    match signal
    case Wake => false
    case Synthetic(e) => ConversationAllowed(req, e.conversationID) && Included(req, e)
    case Durable(e) =>
      && e.sequence > from
      && e.sequence == NextSequence(from)
      && ConversationAllowed(req, e.conversationID)
      && Included(req, e)
  }

  // --- the transition system ---

  datatype Phase =
    | Pulling
    | Sending(rest: seq<Event>, next: nat, sentAny: bool)
    | Waiting
    | Closed(last: nat)

  datatype State = State(
    log: seq<Event>, from: nat, channel: seq<Signal>, out: seq<Sent>, phase: Phase)

  datatype Action =
    | Append(e: Event)           // another transaction commits
    | Publish(signal: Signal)    // a publisher reaches the notifier
    | PullBacklog                // streamSyncBacklog reads a page
    | SendNext                   // one turn of its loop
    | SendFails                  // stream.Send returns an error
    | FinishBacklog              // streamSyncBacklog returns
    | Receive                    // case signal := <-updates
    | Tick                       // case <-reconcileTicker.C
    | Cancel                     // case <-stream.Context().Done()

  predicate Enabled(s: State, a: Action) {
    match a
    case Append(e) => CanAppend(s.log, e)
    case Publish(signal) => signal.Durable? ==> signal.event in s.log
    case PullBacklog => s.phase.Pulling?
    case SendNext => s.phase.Sending? && s.phase.rest != []
    case SendFails => s.phase.Sending? && s.phase.rest != []
    case FinishBacklog => s.phase.Sending? && s.phase.rest == []
    case Receive => s.phase.Waiting? && s.channel != []
    case Tick => s.phase.Waiting?
    case Cancel => s.phase.Waiting? || s.phase.Pulling?
  }

  function Step(req: Request, s: State, a: Action): State
    requires Enabled(s, a)
  {
    match a
    case Append(e) => s.(log := s.log + [e])
    case Publish(signal) => s.(channel := Offer(s.channel, signal))
    case PullBacklog => s.(phase := Sending(Pull(s.log, req, s.from, PageToken.DEFAULT_PAGE_SIZE), s.from, false))
    case SendNext =>
      var e := s.phase.rest[0];
      if Included(req, e)
      then s.(out := s.out + [Sent(e, false)], phase := Sending(s.phase.rest[1..], e.sequence, true))
      else s.(phase := Sending(s.phase.rest[1..], e.sequence, s.phase.sentAny))
    case SendFails => s.(phase := Closed(s.phase.next))
    case FinishBacklog =>
      var s' := if s.phase.next > s.from then s.(from := s.phase.next) else s;
      s'.(phase := if s.phase.sentAny then Pulling else Waiting)
    case Receive =>
      var signal := s.channel[0];
      var s' := s.(channel := s.channel[1..], phase := Pulling);
      if !SendsDirectly(req, s.from, signal) then s'
      else if signal.Synthetic? then s'.(out := s.out + [Sent(signal.event, true)])
      else s'.(out := s.out + [Sent(signal.event, false)], from := signal.event.sequence)
    case Tick => s.(phase := Pulling)
    case Cancel => s.(phase := Closed(s.from))
  }

  // A channel write that drops when the buffer is full.
  function Offer(channel: seq<Signal>, signal: Signal): (r: seq<Signal>)
    ensures |channel| <= CHANNEL_CAPACITY ==> |r| <= CHANNEL_CAPACITY
  {
    if |channel| < CHANNEL_CAPACITY then channel + [signal] else channel
  }

  function Init(log: seq<Event>, start: nat): State {
    State(log, start, [], [], Pulling)
  }

  ghost predicate Reaches(req: Request, s: State, actions: seq<Action>, t: State)
    decreases |actions|
  {
    if actions == [] then s == t
    else Enabled(s, actions[0]) && Reaches(req, Step(req, s, actions[0]), actions[1..], t)
  }

  // The sequence up to which the log has been dealt with.
  function Progress(s: State): nat {
    match s.phase
    case Sending(_, next, _) => next
    case Closed(last) => last
    case _ => s.from
  }

  ghost predicate Inv(req: Request, start: nat, s: State) {
    && ValidLog(s.log)
    && start <= s.from <= Progress(s)
    && (Progress(s) == start || Progress(s) <= LastSequence(s.log))
    && (s.phase.Sending? ==> Chain(s.log, req, s.phase.next, s.phase.rest))
    && (forall i :: 0 <= i < |s.channel| && s.channel[i].Durable? ==> s.channel[i].event in s.log)
    && |s.channel| <= CHANNEL_CAPACITY
    && DurableEvents(s.out) == Replay(s.log, req, start, Progress(s))
  }

  lemma InitInv(req: Request, log: seq<Event>, start: nat)
    requires ValidLog(log)
    ensures Inv(req, start, Init(log, start))
  {
    ReplayEmpty(log, req, start, start);
  }

  lemma StepAppend(req: Request, start: nat, s: State, e: Event)
    requires Inv(req, start, s) && Enabled(s, Append(e))
    ensures Inv(req, start, Step(req, s, Append(e)))
  {
    AppendValid(s.log, e);
    ReplayAppend(s.log, req, start, Progress(s), e);
    if s.phase.Sending? {
      ChainAppend(s.log, req, s.phase.next, s.phase.rest, e);
    }
  }

  lemma StepSendNext(req: Request, start: nat, s: State)
    requires Inv(req, start, s) && Enabled(s, SendNext)
    ensures Inv(req, start, Step(req, s, SendNext))
  {
    var e, rest := s.phase.rest[0], s.phase.rest[1..];
    var s' := Step(req, s, SendNext);
    assert Chain(s'.log, req, e.sequence, rest);
    InLog(s.log, e);
    assert DurableEvents(s'.out) == Replay(s'.log, req, start, e.sequence) by {
      ReplayNext(s.log, req, start, s.phase.next, e);
      DurableEventsAppend(s.out, Sent(e, false));
      assert Kept([e], req) == if Included(req, e) then [e] else [];
    }
  }

  // The guard sequence == from+1 makes a published event the next one of the log.
  lemma DirectSendIsNext(req: Request, log: seq<Event>, from: nat, e: Event)
    requires ValidLog(log) && e in log && SendsDirectly(req, from, Durable(e))
    ensures Next(log, req, from, e)
  {
    InLog(log, e);
    AllowedMatchesRequested(req, e);
  }

  // A direct send extends the replay by one event.
  lemma DirectSendReplays(req: Request, start: nat, log: seq<Event>, from: nat, out: seq<Sent>, e: Event)
    requires ValidLog(log) && e in log && start <= from && SendsDirectly(req, from, Durable(e))
    requires DurableEvents(out) == Replay(log, req, start, from)
    ensures DurableEvents(out + [Sent(e, false)]) == Replay(log, req, start, e.sequence)
    ensures from < e.sequence <= LastSequence(log)
  {
    InLog(log, e);
    DirectSendIsNext(req, log, from, e);
    ReplayNext(log, req, start, from, e);
    DurableEventsAppend(out, Sent(e, false));
    assert Kept([e], req) == [e];
  }

  lemma StepReceive(req: Request, start: nat, s: State)
    requires Inv(req, start, s) && Enabled(s, Receive)
    ensures Inv(req, start, Step(req, s, Receive))
  {
    var signal := s.channel[0];
    if SendsDirectly(req, s.from, signal) {
      if signal.Synthetic? {
        DurableEventsAppend(s.out, Sent(signal.event, true));
      } else {
        DirectSendReplays(req, start, s.log, s.from, s.out, signal.event);
      }
    }
  }

  lemma StepInv(req: Request, start: nat, s: State, a: Action)
    requires Inv(req, start, s) && Enabled(s, a)
    ensures Inv(req, start, Step(req, s, a))
    ensures Progress(s) <= Progress(Step(req, s, a))
  {
    match a
    case Append(e) => StepAppend(req, start, s, e);
    case SendNext => StepSendNext(req, start, s);
    case Receive => StepReceive(req, start, s);
    case PullBacklog => PullChain(s.log, req, s.from, PageToken.DEFAULT_PAGE_SIZE);
    case _ =>
  }

  lemma {:induction false} ReachableInv(req: Request, start: nat, s: State, actions: seq<Action>, t: State)
    requires Inv(req, start, s) && Reaches(req, s, actions, t)
    ensures Inv(req, start, t) && Progress(s) <= Progress(t)
    decreases |actions|
  {
    if actions != [] {
      StepInv(req, start, s, actions[0]);
      ReachableInv(req, start, Step(req, s, actions[0]), actions[1..], t);
    }
  }

  // Whatever the interleaving, the durable events sent are the plain replay of the log
  // over (start, Progress]: a prefix of everything requested and included after start,
  // in order, each once.
  lemma StreamRefinesReplay(req: Request, log: seq<Event>, start: nat, actions: seq<Action>, t: State)
    requires ValidLog(log) && Reaches(req, Init(log, start), actions, t)
    ensures DurableEvents(t.out) == Replay(t.log, req, start, Progress(t))
    ensures forall hi :: hi >= Progress(t) ==> DurableEvents(t.out) <= Replay(t.log, req, start, hi)
    ensures ValidLog(DurableEvents(t.out))
    ensures forall e :: e in DurableEvents(t.out) <==>
              e in t.log && start < e.sequence <= Progress(t) && Requested(req, e) && Included(req, e)
    ensures start <= Progress(t)
  {
    InitInv(req, log, start);
    ReachableInv(req, start, Init(log, start), actions, t);
    ReplayExact(t.log, req, start, Progress(t));
    forall hi | hi >= Progress(t)
      ensures DurableEvents(t.out) <= Replay(t.log, req, start, hi)
    {
      ReplayPrefix(t.log, req, start, Progress(t), hi);
    }
  }

  // --- progress on a log that no longer grows ---

  // No append and no failing send.
  predicate Frozen(actions: seq<Action>) {
    forall i :: 0 <= i < |actions| ==> !actions[i].Append? && !actions[i].SendFails?
  }

  function Pulls(actions: seq<Action>): nat {
    if actions == [] then 0 else (if actions[0].PullBacklog? then 1 else 0) + Pulls(actions[1..])
  }

  // Requested events neither dealt with nor held in the page being sent.
  function Unscanned(req: Request, s: State): int {
    |Scan(s.log, req, Progress(s))| - (if s.phase.Sending? then |s.phase.rest| else 0)
  }

  function Monus(a: int, b: nat): nat { if a > b then a - b else 0 }

  // The page being sent is the front of the unsent scan.
  ghost predicate PageAhead(req: Request, s: State) {
    s.phase.Sending? ==> s.phase.rest <= Scan(s.log, req, s.phase.next)
  }

  lemma ScanNext(log: seq<Event>, req: Request, from: nat, e: Event)
    requires ValidLog(log) && Next(log, req, from, e)
    ensures Scan(log, req, from) == [e] + Scan(log, req, e.sequence)
  {
    var s := Scan(log, req, from);
    ScanMembers(log, req, from);
    assert e in s;
    ScanHead(log, req, from);
    SameSequenceSameEvent(log, s[0], e);
    ScanDrop(log, req, from, 1);
  }

  // One turn of the backlog loop shortens the page and the scan together.
  lemma SendNextUnscanned(req: Request, start: nat, s: State)
    requires Inv(req, start, s) && PageAhead(req, s) && Enabled(s, SendNext)
    ensures PageAhead(req, Step(req, s, SendNext))
    ensures Unscanned(req, Step(req, s, SendNext)) == Unscanned(req, s)
  {
    var e := s.phase.rest[0];
    assert Next(s.log, req, s.phase.next, e);
    ScanNext(s.log, req, s.phase.next, e);
    assert s.phase.rest[1..] <= Scan(s.log, req, e.sequence);
  }

  lemma ReceiveUnscanned(req: Request, start: nat, s: State)
    requires Inv(req, start, s) && Enabled(s, Receive)
    ensures Unscanned(req, Step(req, s, Receive)) <= Unscanned(req, s)
  {
    var signal := s.channel[0];
    if signal.Durable? && SendsDirectly(req, s.from, signal) {
      DirectSendIsNext(req, s.log, s.from, signal.event);
      ScanNext(s.log, req, s.from, signal.event);
    }
  }

  lemma PullUnscanned(req: Request, s: State)
    requires Enabled(s, PullBacklog)
    ensures PageAhead(req, Step(req, s, PullBacklog))
    ensures |Step(req, s, PullBacklog).phase.rest| == Min(Unscanned(req, s), PageToken.DEFAULT_PAGE_SIZE)
    ensures Unscanned(req, Step(req, s, PullBacklog)) == Monus(Unscanned(req, s), PageToken.DEFAULT_PAGE_SIZE)
  {
  }

  lemma IdleUnscanned(req: Request, s: State, a: Action)
    requires PageAhead(req, s) && s.from <= Progress(s) && Enabled(s, a)
    requires a.Publish? || a.FinishBacklog? || a.Tick? || a.Cancel?
    ensures PageAhead(req, Step(req, s, a)) && Unscanned(req, Step(req, s, a)) == Unscanned(req, s)
  {
  }

  lemma StepUnscanned(req: Request, start: nat, s: State, a: Action)
    requires Inv(req, start, s) && PageAhead(req, s)
    requires Enabled(s, a) && !a.Append? && !a.SendFails?
    ensures PageAhead(req, Step(req, s, a))
    ensures Unscanned(req, Step(req, s, a)) <=
              if a.PullBacklog? then Monus(Unscanned(req, s), PageToken.DEFAULT_PAGE_SIZE) else Unscanned(req, s)
  {
    match a
    case SendNext => SendNextUnscanned(req, start, s);
    case Receive => ReceiveUnscanned(req, start, s);
    case PullBacklog => PullUnscanned(req, s);
    case _ => IdleUnscanned(req, s, a);
  }

  lemma {:induction false} FrozenRun(req: Request, start: nat, s: State, actions: seq<Action>, t: State)
    requires Inv(req, start, s) && PageAhead(req, s)
    requires Frozen(actions) && Reaches(req, s, actions, t)
    ensures t.log == s.log && Inv(req, start, t) && PageAhead(req, t)
    ensures Unscanned(req, t) <= Monus(Unscanned(req, s), PageToken.DEFAULT_PAGE_SIZE * Pulls(actions))
    decreases |actions|
  {
    if actions == [] {
    } else {
      var s' := Step(req, s, actions[0]);
      StepInv(req, start, s, actions[0]);
      StepUnscanned(req, start, s, actions[0]);
      assert Frozen(actions[1..]);
      FrozenRun(req, start, s', actions[1..], t);
    }
  }

  // A stream that is not in the middle of a page and has nothing unscanned has sent everything.
  lemma DrainedHasSentAll(req: Request, start: nat, t: State, hi: nat)
    requires Inv(req, start, t) && !t.phase.Sending? && Unscanned(req, t) <= 0 && hi >= Progress(t)
    ensures DurableEvents(t.out) == Replay(t.log, req, start, hi)
  {
    ScanExact(t.log, req, Progress(t));
    assert Scan(t.log, req, Progress(t)) == [];
    ReplayStable(t.log, req, start, Progress(t), hi);
  }

  // Once the log stops growing, every backlog pull takes the next fifty unscanned events,
  // included or not, so enough pulls send everything that was requested and included.
  lemma StreamDrains(req: Request, start: nat, s: State, actions: seq<Action>, t: State, hi: nat)
    requires Inv(req, start, s) && !s.phase.Sending?
    requires Frozen(actions) && Reaches(req, s, actions, t)
    requires !t.phase.Sending? && hi >= Progress(t)
    requires PageToken.DEFAULT_PAGE_SIZE * Pulls(actions) >= |Scan(s.log, req, Progress(s))|
    ensures DurableEvents(t.out) == Replay(s.log, req, start, hi)
  {
    FrozenRun(req, start, s, actions, t);
    DrainedHasSentAll(req, start, t, hi);
  }

  // A page with anything in it moves the stream strictly forward, even when all of it is filtered out.
  lemma {:induction false} PageMovesForward(req: Request, start: nat, s: State, actions: seq<Action>, t: State)
    requires Inv(req, start, s) && Enabled(s, PullBacklog) && Scan(s.log, req, s.from) != []
    requires Reaches(req, Step(req, s, PullBacklog), actions, t)
    requires t.phase.Pulling? || t.phase.Waiting?
    ensures t.from > s.from
  {
    var p := Step(req, s, PullBacklog);
    StepInv(req, start, s, PullBacklog);
    LeavesPageForward(req, start, s.from, p, actions, t);
  }

  lemma {:induction false} ClosedStaysClosed(req: Request, s: State, actions: seq<Action>, t: State)
    requires s.phase.Closed? && Reaches(req, s, actions, t)
    ensures t.phase.Closed?
    decreases |actions|
  {
    if actions != [] {
      ClosedStaysClosed(req, Step(req, s, actions[0]), actions[1..], t);
    }
  }

  lemma {:induction false} LeavesPageForward(req: Request, start: nat, from: nat, s: State, actions: seq<Action>, t: State)
    requires Inv(req, start, s) && s.phase.Sending? && from <= s.phase.next
    requires s.phase.next > from || s.phase.rest != []
    requires Reaches(req, s, actions, t) && (t.phase.Pulling? || t.phase.Waiting?)
    ensures t.from > from
    decreases |actions|
  {
    var s' := Step(req, s, actions[0]);
    StepInv(req, start, s, actions[0]);
    if s'.phase.Sending? {
      LeavesPageForward(req, start, from, s', actions[1..], t);
    } else if s'.phase.Closed? {
      ClosedStaysClosed(req, s', actions[1..], t);
    } else {
      ReachableInv(req, start, s', actions[1..], t);
    }
  }
}
