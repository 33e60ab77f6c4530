// What the sync endpoint sends and returns, said in the fields of requests and events alone.
module SyncContract {
  import opened Text
  import opened EventLog
  import opened SyncStream
  import opened SyncGateway

  // Presence and moderation events need their flag; every other event may be shown.
  ghost predicate MayBeShown(req: Request, e: Event) {
    && (e.eventType == UserUpdated && e.payloadType == "presence" ==> req.includePresence)
    && (e.eventType == AdminActionRecorded && e.payloadType == "moderation_action" ==> req.includeModeration)
  }

  // The request names the event's conversation, or none at all.
  ghost predicate AsksFor(req: Request, e: Event) {
    || (forall c :: c in req.conversationIDs ==> TrimSpace(c) == "")
    || (exists c :: c in req.conversationIDs && TrimSpace(c) != "" && TrimSpace(c) == e.conversationID)
  }

  lemma {:induction false} IncludedIff(req: Request, e: Event)
    ensures Included(req, e) <==> MayBeShown(req, e)
  {
  }

  lemma {:induction false} RequestedIff(req: Request, e: Event)
    ensures Requested(req, e) <==> AsksFor(req, e)
  {
    if RequestedIDs(req) == {} {
      forall c | c in req.conversationIDs
        ensures TrimSpace(c) == ""
      {
        assert TrimSpace(c) != "" ==> TrimSpace(c) in RequestedIDs(req);
      }
    } else {
      var x :| x in RequestedIDs(req);
      var c :| c in req.conversationIDs && TrimSpace(c) != "" && TrimSpace(c) == x;
      assert !(forall c :: c in req.conversationIDs ==> TrimSpace(c) == "");
    }
  }

  // --- the stream ---

  lemma {:induction false} SentIffDurable(out: seq<Sent>, e: Event)
    ensures e in DurableEvents(out) <==> Sent(e, false) in out
  {
    if out != [] {
      var front, last := out[..|out| - 1], out[|out| - 1];
      SentIffDurable(front, e);
      assert out == front + [last];
    }
  }

  // For every script and wherever a send fails: the durable events sent are exactly the log events
  // after start, up to the last one dealt with, that the request asks for and that may be shown.
  // While the call is open that is its position.
  lemma {:induction false} StreamSendsExactly(req: Request, start: nat, script: seq<Turn>, budget: nat) returns (at: nat)
    requires ValidScript(script)
    ensures var c := Streamed(req, start, script, budget);
            && start <= c.from <= at && (c.open ==> at == c.from)
            && forall e :: Sent(e, false) in c.out <==>
                             e in LogAt(script) && start < e.sequence <= at && AsksFor(req, e) && MayBeShown(req, e)
  {
    var c := Streamed(req, start, script, budget);
    at := StreamReplays(req, start, script, budget);
    ReplayExact(LogAt(script), req, start, at);
    forall e
      ensures Sent(e, false) in c.out <==>
                e in LogAt(script) && start < e.sequence <= at && AsksFor(req, e) && MayBeShown(req, e)
    {
      SentIffDurable(c.out, e);
      IncludedIff(req, e);
      RequestedIff(req, e);
    }
  }

  // What the filters let through, synthetic events included.
  ghost predicate PassesFilters(req: Request, s: Sent) {
    && MayBeShown(req, s.event)
    && (s.synthetic ==> req.conversationIDs == []
                        || exists c :: c in req.conversationIDs && TrimSpace(c) == TrimSpace(s.event.conversationID))
  }

  ghost predicate AllPass(req: Request, out: seq<Sent>) {
    forall i :: 0 <= i < |out| ==> PassesFilters(req, out[i])
  }

  lemma {:induction false} PageSendsPass(req: Request, events: seq<Event>)
    ensures AllPass(req, Sends(Kept(events, req)))
    decreases |events|
  {
    if events != [] {
      var front, last := events[..|events| - 1], events[|events| - 1];
      PageSendsPass(req, front);
      if Included(req, last) {
        SendsSnoc(Kept(front, req), last);
        IncludedIff(req, last);
      }
    }
  }

  lemma {:induction false} SendsPrefix(events: seq<Event>, k: nat)
    requires k <= |events|
    ensures Sends(events[..k]) == Sends(events)[..k]
    decreases |events|
  {
    if k < |events| {
      var front := events[..|events| - 1];
      assert front[..k] == events[..k];
      SendsPrefix(front, k);
    } else {
      assert events[..k] == events;
    }
  }

  lemma {:induction false} BacklogPasses(log: seq<Event>, req: Request, from: nat, budget: nat)
    ensures AllPass(req, Backlog(log, req, from, budget).sent)
  {
    var page := Pull(log, req, from, PageToken.DEFAULT_PAGE_SIZE);
    PageSendsPass(req, page);
    if |Kept(page, req)| > budget {
      SendsPrefix(Kept(page, req), budget);
    }
  }

  lemma {:induction false} SignalPasses(req: Request, from: nat, signal: Signal)
    requires SendsDirectly(req, from, signal)
    ensures !signal.Wake? && PassesFilters(req, Sent(signal.event, signal.Synthetic?))
  {
    IncludedIff(req, signal.event);
  }

  // Nothing is ever sent that the flags or, outside the log, the conversation filter hold back.
  lemma {:induction false} StreamPasses(req: Request, start: nat, script: seq<Turn>, budget: nat)
    ensures AllPass(req, Streamed(req, start, script, budget).out)
    decreases |script|
  {
    if script != [] {
      var front, turn := script[..|script| - 1], script[|script| - 1];
      var c := Streamed(req, start, front, budget);
      StreamPasses(req, start, front, budget);
      BacklogPasses(turn.pullLog, req, c.from, c.left);
      if turn.stimulus.Received? {
        var next := Max(c.from, Backlog(turn.pullLog, req, c.from, c.left).next);
        if SendsDirectly(req, next, turn.stimulus.signal) {
          SignalPasses(req, next, turn.stimulus.signal);
        }
      }
    }
  }
}

module PullContract {
  import opened EventLog
  import opened SyncPull
  import opened SyncContract

  // The rows of a call, for every request and log: events of the window that the request asks for
  // and that may be shown, no more than the page holds; one that is missing comes after a full page.
  lemma {:induction false} PullRowsExact(logs: seq<seq<Event>>, req: Request, from: nat, limit: nat, resp: Response, e: Event)
    requires Growing(logs) && Answers(logs, req, from, limit, resp)
    ensures var log := logs[BatchesRead(logs, req, from, limit, 1) - 1];
            && |resp.rows| <= limit
            && (e in resp.rows ==>
                  e in log && from < e.sequence <= resp.nextSequence && AsksFor(req, e) && MayBeShown(req, e))
            && (e in log && from < e.sequence <= resp.nextSequence && AsksFor(req, e) && MayBeShown(req, e)
                && e !in resp.rows ==>
                  |resp.rows| == limit && forall r :: r in resp.rows ==> r.sequence < e.sequence)
  {
    var n := BatchesRead(logs, req, from, limit, 1);
    var log := logs[n - 1];
    var window := Replay(log, req, from, resp.nextSequence);
    PullReturnsReplay(log, req, from, limit, n, resp);
    ReplayExact(log, req, from, resp.nextSequence);
    IncludedIff(req, e);
    RequestedIff(req, e);
    if e in window && e !in resp.rows {
      BehindTheCut(window, limit, e);
    }
  }

  // What a cut leaves out of a valid log comes after everything it keeps.
  lemma {:induction false} BehindTheCut(window: seq<Event>, limit: nat, e: Event)
    requires ValidLog(window) && e in window && e !in Take(window, limit)
    ensures |Take(window, limit)| == limit && forall r :: r in Take(window, limit) ==> r.sequence < e.sequence
  {
    var kept := Take(window, limit);
    var rest := window[|kept|..];
    assert window == kept + rest;
    var k :| 0 <= k < |rest| && rest[k] == e;
    forall r | r in kept
      ensures r.sequence < e.sequence
    {
      var j :| 0 <= j < |kept| && kept[j] == r;
      assert window[j] == r;
      ValidLogIsSorted(window, j, |kept| + k);
    }
  }
}
