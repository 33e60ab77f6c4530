// The streaming calls of the sync endpoint in the form the gateway gives them:
// loops over pages and signals, and the notifier with its dropping channels.
module SyncGateway {
  import opened EventLog
  import opened SyncStream
  import PageToken

  // What the stream has sent when the log up to `at` has been dealt with.
  ghost predicate StreamAt(req: Request, start: nat, log: seq<Event>, at: nat, out: seq<Sent>) {
    && ValidLog(log)
    && start <= at && (at == start || at <= LastSequence(log))
    && DurableEvents(out) == Replay(log, req, start, at)
  }

  lemma StreamAtGrows(req: Request, start: nat, log: seq<Event>, log': seq<Event>, at: nat, out: seq<Sent>)
    requires StreamAt(req, start, log, at, out) && ValidLog(log') && log <= log'
    ensures StreamAt(req, start, log', at, out)
  {
    ValidPrefix(log, log');
    ReplayGrow(log, log', req, start, at);
  }

  // One more requested event of the log dealt with: sent when it is included.
  lemma StreamAtNext(req: Request, start: nat, log: seq<Event>, at: nat, out: seq<Sent>, e: Event)
    requires StreamAt(req, start, log, at, out) && Next(log, req, at, e)
    ensures StreamAt(req, start, log, e.sequence, if Included(req, e) then out + [Sent(e, false)] else out)
  {
    InLog(log, e);
    ReplayNext(log, req, start, at, e);
    DurableEventsAppend(out, Sent(e, false));
    assert Kept([e], req) == if Included(req, e) then [e] else [];
  }

  // Stream.Send fails once the stream has taken `budget` more messages.

  function Sends(events: seq<Event>): (r: seq<Sent>)
    ensures |r| == |events|
  {
    if events == [] then [] else Sends(events[..|events| - 1]) + [Sent(events[|events| - 1], false)]
  }

  datatype Page = Page(sent: seq<Sent>, next: nat, sentAny: bool, ok: bool)

  // What sending these events amounts to.
  function SendPage(events: seq<Event>, req: Request, from: nat, budget: nat): (r: Page)
    ensures r.ok ==> |r.sent| <= budget
  {
    var kept := Kept(events, req);
    if |kept| <= budget then Page(Sends(kept), After(from, events), kept != [], true)
    else Page(Sends(kept[..budget]), from, false, false)
  }

  // What streamSyncBacklog sends and returns.
  function Backlog(log: seq<Event>, req: Request, from: nat, budget: nat): (r: Page)
    ensures r.ok ==> |r.sent| <= budget
  {
    SendPage(Pull(log, req, from, PageToken.DEFAULT_PAGE_SIZE), req, from, budget)
  }

  lemma KeptSnoc(events: seq<Event>, i: nat, req: Request)
    requires i < |events|
    ensures Kept(events[..i + 1], req)
            == if Included(req, events[i]) then Kept(events[..i], req) + [events[i]] else Kept(events[..i], req)
  {
    assert events[..i + 1][..i] == events[..i];
  }

  lemma {:induction false} KeptPrefix(events: seq<Event>, i: nat, req: Request)
    requires i <= |events|
    ensures Kept(events[..i], req) <= Kept(events, req)
    decreases |events| - i
  {
    if i < |events| {
      KeptSnoc(events, i, req);
      KeptPrefix(events, i + 1, req);
    } else {
      assert events[..i] == events;
    }
  }

  lemma SendsSnoc(events: seq<Event>, e: Event)
    ensures Sends(events + [e]) == Sends(events) + [Sent(e, false)]
  {
    assert (events + [e])[..|events|] == events;
  }

  // With as many events kept before the i-th as the stream takes, the page fails there.
  lemma PageFails(events: seq<Event>, req: Request, from: nat, budget: nat, i: nat)
    requires i < |events| && Included(req, events[i]) && |Kept(events[..i], req)| == budget
    ensures SendPage(events, req, from, budget) == Page(Sends(Kept(events[..i], req)), from, false, false)
  {
    KeptSnoc(events, i, req);
    KeptPrefix(events, i + 1, req);
    var sent, kept := Kept(events[..i], req), Kept(events, req);
    assert sent + [events[i]] <= kept;
    assert kept[..budget] == sent;
  }

  // The loop of streamSyncBacklog; `ok` is false when stream.Send fails.
  method SendEvents(events: seq<Event>, req: Request, from: nat, budget: nat) returns (page: Page)
    ensures page == SendPage(events, req, from, budget)
  {
    var next, sentAny, left, out := from, false, budget, [];
    ghost var sent: seq<Event> := [];
    for i := 0 to |events|
      invariant next == After(from, events[..i])
      invariant sent == Kept(events[..i], req) && |sent| + left == budget && sentAny == (sent != [])
      invariant out == Sends(sent)
    {
      var event := events[i];
      KeptSnoc(events, i, req);
      next := event.sequence;
      if Included(req, event) {
        if left == 0 {
          PageFails(events, req, from, budget, i);
          return Page(out, from, false, false);
        }
        SendsSnoc(sent, event);
        left, out, sentAny := left - 1, out + [Sent(event, false)], true;
        sent := sent + [event];
      }
    }
    assert events[..|events|] == events;
    return Page(out, next, sentAny, true);
  }

  method StreamSyncBacklog(log: seq<Event>, req: Request, from: nat, budget: nat) returns (page: Page)
    ensures page == Backlog(log, req, from, budget)
  {
    var events := Pull(log, req, from, PageToken.DEFAULT_PAGE_SIZE);
    page := SendEvents(events, req, from, budget);
  }

  // The i-th event of a page is the next one after those before it.
  lemma NextOfPage(log: seq<Event>, req: Request, from: nat, i: nat, at: nat, e: Event)
    requires ValidLog(log) && i < |Scan(log, req, from)| && e == Scan(log, req, from)[i]
    requires at == After(from, Scan(log, req, from)[..i])
    ensures Next(log, req, at, e)
  {
    if i > 0 {
      ScanDrop(log, req, from, i);
    }
    ScanHead(log, req, at);
  }

  lemma PageStep(log: seq<Event>, req: Request, start: nat, at: nat, e: Event, out0: seq<Sent>, sent: seq<Event>)
    requires StreamAt(req, start, log, at, out0 + Sends(sent)) && Next(log, req, at, e)
    ensures StreamAt(req, start, log, e.sequence, out0 + Sends(if Included(req, e) then sent + [e] else sent))
  {
    StreamAtNext(req, start, log, at, out0 + Sends(sent), e);
    SendsSnoc(sent, e);
    assert (out0 + Sends(sent)) + [Sent(e, false)] == out0 + (Sends(sent) + [Sent(e, false)]);
  }

  // After i events of a page the stream has sent the replay up to the i-th.
  lemma {:induction false} PageReplays(log: seq<Event>, req: Request, start: nat, from: nat, i: nat, out0: seq<Sent>)
    requires StreamAt(req, start, log, from, out0) && i <= |Scan(log, req, from)|
    ensures var page := Scan(log, req, from)[..i];
            StreamAt(req, start, log, After(from, page), out0 + Sends(Kept(page, req))) && from <= After(from, page)
  {
    var scan := Scan(log, req, from);
    if i == 0 {
      assert out0 + Sends(Kept(scan[..i], req)) == out0;
    } else {
      var k := i - 1;
      var at, sent, e := After(from, scan[..k]), Kept(scan[..k], req), scan[k];
      PageReplays(log, req, start, from, k, out0);
      NextOfPage(log, req, from, k, at, e);
      PageStep(log, req, start, at, e, out0, sent);
      KeptSnoc(scan, k, req);
      assert After(from, scan[..i]) == e.sequence;
    }
  }

  // Some prefix of a page keeps exactly the first k kept events.
  lemma {:induction false} KeptReaches(page: seq<Event>, req: Request, k: nat) returns (i: nat)
    requires k <= |Kept(page, req)|
    ensures i <= |page| && Kept(page[..i], req) == Kept(page, req)[..k]
    decreases |page|
  {
    if k == |Kept(page, req)| {
      i := |page|;
      assert page[..i] == page;
    } else {
      var front := page[..|page| - 1];
      i := KeptReaches(front, req, k);
      assert front[..i] == page[..i];
    }
  }

  // A backlog read keeps sent == replay, also when a send fails midway; a page that went out
  // whole moves the stream to its end, and strictly forward if there was anything to read.
  lemma BacklogReplays(log: seq<Event>, req: Request, start: nat, from: nat, budget: nat, out0: seq<Sent>)
    returns (at: nat)
    requires StreamAt(req, start, log, from, out0)
    ensures var page := Backlog(log, req, from, budget);
            && StreamAt(req, start, log, at, out0 + page.sent) && from <= at && from <= page.next <= at
            && (page.ok ==> page.next == at)
            && (page.ok && Scan(log, req, from) != [] ==> page.next > from)
  {
    var scan := Scan(log, req, from);
    var page := Pull(log, req, from, PageToken.DEFAULT_PAGE_SIZE);
    var i := |page|;
    assert page == scan[..i];
    if |Kept(page, req)| > budget {
      i := KeptReaches(page, req, budget);
      assert page[..i] == scan[..i];
    }
    PageReplays(log, req, start, from, i, out0);
    at := After(from, scan[..i]);
    if scan != [] {
      NextOfPage(log, req, from, |page| - 1, After(from, scan[..|page| - 1]), scan[|page| - 1]);
      PageReplays(log, req, start, from, |page| - 1, out0);
    }
  }

  // A page that came back short leaves nothing requested behind.
  lemma ShortPageExhausts(log: seq<Event>, req: Request, from: nat)
    requires ValidLog(log) && |Scan(log, req, from)| <= PageToken.DEFAULT_PAGE_SIZE
    ensures Scan(log, req, After(from, Pull(log, req, from, PageToken.DEFAULT_PAGE_SIZE))) == []
  {
    var scan := Scan(log, req, from);
    if scan != [] {
      ScanDrop(log, req, from, |scan|);
    }
  }

  // Once a page came back short and went out whole, everything requested and included in the
  // log it was read from has been sent.
  lemma ShortPageCatchesUp(log: seq<Event>, req: Request, start: nat, from: nat, budget: nat, out0: seq<Sent>, hi: nat)
    requires StreamAt(req, start, log, from, out0) && |Scan(log, req, from)| <= PageToken.DEFAULT_PAGE_SIZE
    requires Backlog(log, req, from, budget).ok && hi >= Backlog(log, req, from, budget).next
    ensures DurableEvents(out0 + Backlog(log, req, from, budget).sent) == Replay(log, req, start, hi)
  {
    var at := BacklogReplays(log, req, start, from, budget, out0);
    ShortPageExhausts(log, req, from);
    ScanExact(log, req, at);
    assert Scan(log, req, at) == [];
    ReplayStable(log, req, start, at, hi);
  }

  // Where a direct send leaves the stream.
  function DirectNext(from: nat, signal: Signal): nat {
    if signal.Durable? then signal.event.sequence else from
  }

  // tryDirectSyncSignal.
  method TryDirectSyncSignal(req: Request, from: nat, signal: Signal, budget: nat, out0: seq<Sent>)
    returns (out: seq<Sent>, next: nat, sent: bool, ok: bool)
    ensures ok == !(SendsDirectly(req, from, signal) && budget == 0)
    ensures sent == (SendsDirectly(req, from, signal) && budget > 0)
    ensures sent ==> !signal.Wake? && out == out0 + [Sent(signal.event, signal.Synthetic?)] && next == DirectNext(from, signal)
    ensures !sent ==> out == out0 && next == from
  {
    if signal.Wake? {
      return out0, from, false, true;
    }
    var event := signal.event;
    if signal.Synthetic? {
      var allowed := SyncConversationAllowed(event.conversationID, req.conversationIDs);
      if !allowed || !Included(req, event) {
        return out0, from, false, true;
      }
      if budget == 0 {
        return out0, from, false, false;
      }
      return out0 + [Sent(event, true)], from, true, true;
    }
    if event.sequence <= from || event.sequence != NextSequence(from) {
      return out0, from, false, true;
    }
    var allowed := SyncConversationAllowed(event.conversationID, req.conversationIDs);
    if !allowed || !Included(req, event) {
      return out0, from, false, true;
    }
    if budget == 0 {
      return out0, from, false, false;
    }
    return out0 + [Sent(event, false)], event.sequence, true, true;
  }

  // A direct send of an event that is in the log keeps sent == replay.
  lemma DirectReplays(log: seq<Event>, req: Request, start: nat, from: nat, signal: Signal, out: seq<Sent>)
    requires StreamAt(req, start, log, from, out) && SendsDirectly(req, from, signal)
    requires signal.Durable? ==> signal.event in log
    ensures !signal.Wake?
    ensures StreamAt(req, start, log, DirectNext(from, signal), out + [Sent(signal.event, signal.Synthetic?)])
  {
    if signal.Synthetic? {
      DurableEventsAppend(out, Sent(signal.event, true));
    } else {
      DirectSendReplays(req, start, log, from, out, signal.event);
    }
  }

  // --- SubscribeEvents against an arbitrary environment ---

  datatype Stimulus = Done | Reconcile | Received(signal: Signal)

  // The log when the backlog is read, what the select then yields, and the log at that moment.
  datatype Turn = Turn(pullLog: seq<Event>, stimulus: Stimulus, wakeLog: seq<Event>)

  ghost predicate ValidScript(script: seq<Turn>) {
    && (forall i :: 0 <= i < |script| ==>
          && ValidLog(script[i].wakeLog) && script[i].pullLog <= script[i].wakeLog
          && (script[i].stimulus.Received? && script[i].stimulus.signal.Durable? ==>
                script[i].stimulus.signal.event in script[i].wakeLog))
    && (forall i :: 0 <= i && i + 1 < |script| ==> script[i].wakeLog <= script[i + 1].pullLog)
  }

  // A call under way: what it has sent, where it stands, and how many sends will still succeed.
  datatype Call = Call(out: seq<Sent>, from: nat, left: nat, open: bool)

  function Max(a: nat, b: nat): nat {
    if a < b then b else a
  }

  // The select of a turn that sent no page.
  function AfterStimulus(req: Request, c: Call, stimulus: Stimulus): Call {
    match stimulus
    case Done => c.(open := false)
    case Reconcile => c
    case Received(signal) =>
      if !SendsDirectly(req, c.from, signal) then c
      else if c.left == 0 then c.(open := false)
      else Call(c.out + [Sent(signal.event, signal.Synthetic?)], DirectNext(c.from, signal), c.left - 1, true)
  }

  function AfterPage(req: Request, c: Call, page: Page, stimulus: Stimulus): Call
    requires page.ok ==> |page.sent| <= c.left
  {
    if !page.ok then Call(c.out + page.sent, c.from, 0, false)
    else if page.sentAny then Call(c.out + page.sent, Max(c.from, page.next), c.left - |page.sent|, true)
    else AfterStimulus(req, c.(from := Max(c.from, page.next), open := true), stimulus)
  }

  // What a call amounts to: pages alternate with direct sends until the script ends, the
  // client leaves or a send fails.
  function Streamed(req: Request, start: nat, script: seq<Turn>, budget: nat): Call {
    if script == [] then Call([], start, budget, true) else
    var c, turn := Streamed(req, start, script[..|script| - 1], budget), script[|script| - 1];
    if !c.open then c else AfterPage(req, c, Backlog(turn.pullLog, req, c.from, c.left), turn.stimulus)
  }

  lemma {:induction false} ClosedForGood(req: Request, start: nat, script: seq<Turn>, budget: nat, i: nat)
    requires i <= |script| && !Streamed(req, start, script[..i], budget).open
    ensures Streamed(req, start, script, budget) == Streamed(req, start, script[..i], budget)
    decreases |script|
  {
    if i == |script| {
      assert script[..i] == script;
    } else {
      var front := script[..|script| - 1];
      assert front[..i] == script[..i];
      ClosedForGood(req, start, front, budget, i);
    }
  }

  // One turn of the loop; `open` is false when the call returns from it.
  method TakeTurn(req: Request, c: Call, turn: Turn) returns (next: Call)
    requires c.open
    ensures next == AfterPage(req, c, Backlog(turn.pullLog, req, c.from, c.left), turn.stimulus)
  {
    var page := StreamSyncBacklog(turn.pullLog, req, c.from, c.left);
    if !page.ok {
      return Call(c.out + page.sent, c.from, 0, false);
    }
    var from := c.from;
    if page.next > from {
      from := page.next;
    }
    if page.sentAny {
      return Call(c.out + page.sent, from, c.left - |page.sent|, true);
    }
    match turn.stimulus {
      case Done => return Call(c.out, from, c.left, false);
      case Reconcile => return Call(c.out, from, c.left, true);
      case Received(signal) =>
        var out, directNext, sent, ok := TryDirectSyncSignal(req, from, signal, c.left, c.out);
        if !ok {
          return Call(c.out, from, c.left, false);
        }
        return Call(out, directNext, if sent then c.left - 1 else c.left, true);
    }
  }

  // The whole call.
  method SubscribeEvents(req: Request, start: nat, script: seq<Turn>, budget: nat) returns (end: Call)
    ensures end == Streamed(req, start, script, budget)
  {
    end := Call([], start, budget, true);
    var i := 0;
    while i < |script| && end.open
      invariant 0 <= i <= |script|
      invariant Streamed(req, start, script[..i], budget) == end
    {
      assert script[..i + 1][..i] == script[..i];
      end := TakeTurn(req, end, script[i]);
      i := i + 1;
    }
    if !end.open {
      ClosedForGood(req, start, script, budget, i);
    } else {
      assert script[..i] == script;
    }
  }

  // One turn keeps sent == replay, on the log as it stands at the end of the turn.
  lemma TurnReplays(req: Request, start: nat, c: Call, turn: Turn) returns (later: nat)
    requires StreamAt(req, start, turn.pullLog, c.from, c.out)
    requires ValidLog(turn.wakeLog) && turn.pullLog <= turn.wakeLog
    requires turn.stimulus.Received? && turn.stimulus.signal.Durable? ==> turn.stimulus.signal.event in turn.wakeLog
    ensures var next := AfterPage(req, c, Backlog(turn.pullLog, req, c.from, c.left), turn.stimulus);
            && StreamAt(req, start, turn.wakeLog, later, next.out)
            && c.from <= next.from <= later && (next.open ==> later == next.from)
  {
    var page := Backlog(turn.pullLog, req, c.from, c.left);
    later := BacklogReplays(turn.pullLog, req, start, c.from, c.left, c.out);
    StreamAtGrows(req, start, turn.pullLog, turn.wakeLog, later, c.out + page.sent);
    if page.ok && !page.sentAny {
      assert c.out + page.sent == c.out;
      later := StimulusReplays(req, start, c.(from := page.next, open := true), turn);
    }
  }

  // What a stimulus does: nothing but perhaps end the call, or one direct send that moves on.
  lemma {:induction false} StimulusDoes(req: Request, c: Call, stimulus: Stimulus)
    ensures var next := AfterStimulus(req, c, stimulus);
            || (next.out == c.out && next.from == c.from)
            || (stimulus.Received? && SendsDirectly(req, c.from, stimulus.signal) && !stimulus.signal.Wake?
                && next.out == c.out + [Sent(stimulus.signal.event, stimulus.signal.Synthetic?)]
                && c.from <= next.from == DirectNext(c.from, stimulus.signal))
  {
  }

  lemma {:induction false} StimulusReplays(req: Request, start: nat, c: Call, turn: Turn) returns (later: nat)
    requires StreamAt(req, start, turn.wakeLog, c.from, c.out)
    requires turn.stimulus.Received? && turn.stimulus.signal.Durable? ==> turn.stimulus.signal.event in turn.wakeLog
    ensures var next := AfterStimulus(req, c, turn.stimulus);
            StreamAt(req, start, turn.wakeLog, later, next.out) && c.from <= next.from == later
  {
    var next := AfterStimulus(req, c, turn.stimulus);
    later := next.from;
    StimulusDoes(req, c, turn.stimulus);
    if next.out != c.out || next.from != c.from {
      DirectReplays(turn.wakeLog, req, start, c.from, turn.stimulus.signal, c.out);
    }
  }

  // The log as the last turn left it.
  function LogAt(script: seq<Turn>): seq<Event> {
    if script == [] then [] else script[|script| - 1].wakeLog
  }

  // Whatever its environment does, and wherever a send fails, a call has sent the replay of
  // the log up to the last event it dealt with.
  lemma {:induction false} StreamReplays(req: Request, start: nat, script: seq<Turn>, budget: nat)
    returns (at: nat)
    requires ValidScript(script)
    ensures var c := Streamed(req, start, script, budget);
            StreamAt(req, start, LogAt(script), at, c.out) && start <= c.from <= at && (c.open ==> at == c.from)
    decreases |script|
  {
    if script == [] {
      at := start;
      ReplayEmpty([], req, start, start);
    } else {
      var front, turn := script[..|script| - 1], script[|script| - 1];
      var c := Streamed(req, start, front, budget);
      at := StreamReplays(req, start, front, budget);
      LogsGrow(script);
      ValidPrefix(turn.pullLog, turn.wakeLog);
      StreamAtGrows(req, start, LogAt(front), turn.pullLog, at, c.out);
      if c.open {
        at := TurnReplays(req, start, c, turn);
      } else {
        StreamAtGrows(req, start, turn.pullLog, turn.wakeLog, at, c.out);
      }
    }
  }

  // So a call whose last page came back short and went out whole has sent all of that log.
  lemma CallCatchesUp(req: Request, start: nat, script: seq<Turn>, budget: nat, hi: nat)
    requires ValidScript(script) && script != []
    requires var c := Streamed(req, start, script[..|script| - 1], budget);
             var log := script[|script| - 1].pullLog;
             && c.open && Backlog(log, req, c.from, c.left).ok && hi >= Backlog(log, req, c.from, c.left).next
             && |Scan(log, req, c.from)| <= PageToken.DEFAULT_PAGE_SIZE
    ensures var c := Streamed(req, start, script[..|script| - 1], budget);
            var log := script[|script| - 1].pullLog;
            DurableEvents(c.out + Backlog(log, req, c.from, c.left).sent) == Replay(log, req, start, hi)
  {
    var front, turn := script[..|script| - 1], script[|script| - 1];
    var c := Streamed(req, start, front, budget);
    LogsGrow(script);
    var at := StreamReplays(req, start, front, budget);
    ValidPrefix(turn.pullLog, turn.wakeLog);
    StreamAtGrows(req, start, LogAt(front), turn.pullLog, at, c.out);
    ShortPageCatchesUp(turn.pullLog, req, start, c.from, c.left, c.out, hi);
  }

  lemma LogsGrow(script: seq<Turn>)
    requires ValidScript(script) && script != []
    ensures var front, turn := script[..|script| - 1], script[|script| - 1];
            && ValidScript(front) && ValidLog(turn.wakeLog) && turn.pullLog <= turn.wakeLog
            && LogAt(front) <= turn.pullLog
            && (turn.stimulus.Received? && turn.stimulus.signal.Durable? ==> turn.stimulus.signal.event in turn.wakeLog)
  {
    var n := |script| - 1;
    if n > 0 {
      assert script[n - 1 + 1] == script[n];
      assert script[..n][n - 1] == script[n - 1];
    }
  }

  // --- the notifier ---

  // Channels are numbered; a subscriber's value is what its channel buffers.
  class SyncNotifier {
    var subscribers: map<nat, seq<Signal>>
    var nextChannel: nat

    ghost predicate Valid()
      reads this
    {
      forall c :: c in subscribers ==> c < nextChannel && |subscribers[c]| <= CHANNEL_CAPACITY
    }

    constructor ()
      ensures Valid() && subscribers == map[]
    {
      subscribers, nextChannel := map[], 0;
    }

    method Subscribe() returns (c: nat)
      requires Valid()
      modifies this
      ensures Valid() && c !in old(subscribers) && subscribers == old(subscribers)[c := []]
    {
      c := nextChannel;
      nextChannel := nextChannel + 1;
      subscribers := subscribers[c := []];
    }

    method Unsubscribe(c: nat)
      requires Valid()
      modifies this
      ensures Valid() && subscribers == old(subscribers) - {c}
    {
      subscribers := subscribers - {c};
    }

    // Every channel with room gets the signal, every full one drops it, in whatever
    // order the map is walked.
    method Broadcast(signal: Signal)
      requires Valid()
      modifies this`subscribers
      ensures Valid() && subscribers.Keys == old(subscribers.Keys)
      ensures forall c :: c in subscribers ==> subscribers[c] == Offer(old(subscribers)[c], signal)
    {
      var todo := subscribers.Keys;
      while todo != {}
        invariant Valid() && subscribers.Keys == old(subscribers.Keys) && todo <= subscribers.Keys
        invariant forall c :: c in subscribers ==>
                    subscribers[c] == if c in todo then old(subscribers)[c] else Offer(old(subscribers)[c], signal)
        decreases |todo|
      {
        var c :| c in todo;
        if |subscribers[c]| < CHANNEL_CAPACITY {
          subscribers := subscribers[c := subscribers[c] + [signal]];
        }
        todo := todo - {c};
      }
    }

    method Publish(event: Event)
      requires Valid()
      modifies this`subscribers
      ensures Valid() && subscribers.Keys == old(subscribers.Keys)
      ensures forall c :: c in subscribers ==>
                subscribers[c] == if event.eventID == "" then old(subscribers)[c]
                                  else Offer(old(subscribers)[c], Durable(event))
    {
      if event.eventID != "" {
        Broadcast(Durable(event));
      }
    }
  }
}
