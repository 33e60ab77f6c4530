// PullEvents: a batched, filtered scan of the log with a row cap.
module SyncPull {
  import opened EventLog
  import PageToken

  const MAX_BATCHES: nat := 8

  // syncPullBatchLimit. For page sizes it is at least the page and below the
  // service's own cap of 1000, so the service never shortens a batch.
  function BatchLimit(limit: int): (raw: nat)
    ensures raw >= 32 && raw >= limit
    ensures 1 <= limit <= PageToken.MAX_PAGE_SIZE ==> raw <= 512
  {
    if limit <= 0 then 128
    else if limit < 32 then 32
    else if limit > 128 then limit
    else limit * 4
  }

  datatype Response = Response(rows: seq<Event>, nextSequence: nat, hasMore: bool)

  // The size of n full batches.
  function Times(n: nat, raw: nat): (r: nat)
    ensures n > 0 ==> r >= raw
  {
    if n == 0 then 0 else Times(n - 1, raw) + raw
  }

  // What a call that read `batches` pages returns, in terms of the log of its last read.
  ghost predicate Outcome(log: seq<Event>, req: Request, from: nat, limit: nat, batches: nat, resp: Response) {
    var raw := BatchLimit(limit);
    var scan := Scan(log, req, from);
    var scanned := Take(scan, Times(batches, raw));
    && 1 <= batches <= MAX_BATCHES
    && resp.nextSequence == After(from, scanned)
    && resp.rows == Take(Kept(scanned, req), limit)
    && resp.hasMore == (|scanned| == Times(batches, raw))
    && |Kept(Take(scan, Times(batches - 1, raw)), req)| < limit
    && (resp.hasMore ==> batches == MAX_BATCHES || |resp.rows| == limit)
  }

  ghost predicate Growing(logs: seq<seq<Event>>) {
    && |logs| == MAX_BATCHES
    && (forall i :: 0 <= i < |logs| ==> ValidLog(logs[i]))
    && (forall i :: 0 <= i && i + 1 < |logs| ==> logs[i] <= logs[i + 1])
  }

  // The loop ends with its n-th batch: the eighth, one that came up short, or one that filled
  // the page.
  predicate LastBatch(log: seq<Event>, req: Request, from: nat, limit: nat, n: nat) {
    var scan, read := Scan(log, req, from), Times(n, BatchLimit(limit));
    n >= MAX_BATCHES || |scan| < read || |Kept(Take(scan, read), req)| >= limit
  }

  // The same for the n-th batch of a call whose i-th read sees logs[i - 1].
  predicate Ends(logs: seq<seq<Event>>, req: Request, from: nat, limit: nat, n: nat)
    requires 1 <= n <= |logs|
  {
    LastBatch(logs[n - 1], req, from, limit, n)
  }

  // How many batches a call reads, from the n-th on.
  function BatchesRead(logs: seq<seq<Event>>, req: Request, from: nat, limit: nat, n: nat): (r: nat)
    requires |logs| == MAX_BATCHES && 1 <= n <= MAX_BATCHES
    ensures n <= r <= MAX_BATCHES
    ensures Ends(logs, req, from, limit, r) && forall m :: n <= m < r ==> !Ends(logs, req, from, limit, m)
    decreases MAX_BATCHES - n
  {
    if n == MAX_BATCHES || Ends(logs, req, from, limit, n) then n else BatchesRead(logs, req, from, limit, n + 1)
  }

  // What a call answers, from its input alone.
  ghost predicate Answers(logs: seq<seq<Event>>, req: Request, from: nat, limit: nat, resp: Response)
    requires |logs| == MAX_BATCHES
  {
    var n := BatchesRead(logs, req, from, limit, 1);
    Outcome(logs[n - 1], req, from, limit, n, resp)
  }

  lemma {:induction false} KeptConcat(a: seq<Event>, b: seq<Event>, req: Request)
    ensures Kept(a + b, req) == Kept(a, req) + Kept(b, req)
  {
    if b == [] {
      assert a + b == a;
    } else {
      assert (a + b)[..|a + b| - 1] == a + b[..|b| - 1];
      KeptConcat(a, b[..|b| - 1], req);
    }
  }

  lemma TakeSplit(s: seq<Event>, k: nat, raw: nat)
    requires k <= |s|
    ensures Take(s, k + raw) == s[..k] + Take(s[k..], raw)
  {
  }

  // Reading on from the k-th scanned event.
  lemma ReadsOn(log: seq<Event>, req: Request, from: nat, k: nat, raw: nat)
    requires ValidLog(log) && k <= |Scan(log, req, from)|
    ensures Pull(log, req, After(from, Scan(log, req, from)[..k]), raw) == Take(Scan(log, req, from)[k..], raw)
  {
    var s := Scan(log, req, from);
    var at := After(from, s[..k]);
    assert Scan(log, req, at) == s[k..] by {
      if k > 0 {
        assert at == s[k - 1].sequence;
        ScanDrop(log, req, from, k);
      }
    }
  }

  // n full pages have been read and none came up short.
  ghost predicate FullPages(log: seq<Event>, req: Request, from: nat, limit: nat, n: nat, rows: seq<Event>, next: nat) {
    var k := Times(n, BatchLimit(limit));
    var scan := Scan(log, req, from);
    && ValidLog(log)
    && k <= |scan|
    && next == After(from, scan[..k])
    && rows == Take(Kept(scan[..k], req), limit)
  }

  // A page read from where the last full page ended continues the scan, also on a longer log.
  lemma PageContinuesScan(log: seq<Event>, log': seq<Event>, req: Request, from: nat, limit: nat, n: nat,
                          rows: seq<Event>, next: nat, events: seq<Event>)
    requires FullPages(log, req, from, limit, n, rows, next) && |rows| < limit
    requires ValidLog(log') && log <= log'
    requires events == Pull(log', req, next, BatchLimit(limit))
    ensures FullPages(log', req, from, limit, n, rows, next)
    ensures var k := Times(n, BatchLimit(limit));
            Take(Scan(log', req, from), Times(n + 1, BatchLimit(limit))) == Scan(log', req, from)[..k] + events
  {
    var raw := BatchLimit(limit);
    var k := Times(n, raw);
    var s, s' := Scan(log, req, from), Scan(log', req, from);
    ScanGrow(log, log', req, from);
    assert s'[..k] == s[..k];
    ReadsOn(log', req, from, k, raw);
    TakeSplit(s', k, raw);
  }

  // What one more page adds to the scanned events.
  lemma PageAdds(scan: seq<Event>, req: Request, from: nat, k: nat, k': nat, next: nat, events: seq<Event>)
    requires k <= |scan| && Take(scan, k') == scan[..k] + events
    requires next == After(from, scan[..k])
    ensures Kept(Take(scan, k'), req) == Kept(scan[..k], req) + Kept(events, req)
    ensures After(from, Take(scan, k')) == After(next, events)
    ensures Take(scan, k) == scan[..k]
    ensures |Take(scan, k')| == k + |events|
  {
    KeptConcat(scan[..k], events, req);
  }

  // Where one more page leaves the call, in terms of the scan.
  lemma PageFacts(log: seq<Event>, req: Request, from: nat, limit: nat, n: nat, rows: seq<Event>, next: nat,
                  events: seq<Event>, rows': seq<Event>)
    requires FullPages(log, req, from, limit, n, rows, next) && |rows| < limit
    requires Take(Scan(log, req, from), Times(n + 1, BatchLimit(limit)))
             == Scan(log, req, from)[..Times(n, BatchLimit(limit))] + events
    requires rows' == Take(rows + Kept(events, req), limit)
    ensures var scan, k := Scan(log, req, from), Times(n, BatchLimit(limit));
            var read := Take(scan, Times(n + 1, BatchLimit(limit)));
            && rows' == Take(Kept(read, req), limit)
            && After(next, events) == After(from, read)
            && |read| == k + |events|
            && Kept(Take(scan, k), req) == rows
  {
    PageAdds(Scan(log, req, from), req, from, Times(n, BatchLimit(limit)), Times(n + 1, BatchLimit(limit)), next, events);
  }

  // After one more page the call either has its outcome or has read another full page.
  lemma PageRead(log: seq<Event>, req: Request, from: nat, limit: nat, n: nat, rows: seq<Event>, next: nat,
                 events: seq<Event>, rows': seq<Event>)
    requires FullPages(log, req, from, limit, n, rows, next) && |rows| < limit
    requires |events| <= BatchLimit(limit)
    requires Take(Scan(log, req, from), Times(n + 1, BatchLimit(limit)))
             == Scan(log, req, from)[..Times(n, BatchLimit(limit))] + events
    requires rows' == Take(rows + Kept(events, req), limit)
    ensures |events| == BatchLimit(limit) ==> FullPages(log, req, from, limit, n + 1, rows', After(next, events))
    ensures var full := |events| == BatchLimit(limit);
            n < MAX_BATCHES && (full ==> n + 1 == MAX_BATCHES || |rows'| == limit) ==>
              Outcome(log, req, from, limit, n + 1, Response(rows', After(next, events), full))
  {
    var scan, k' := Scan(log, req, from), Times(n + 1, BatchLimit(limit));
    PageFacts(log, req, from, limit, n, rows, next, events, rows');
    if |events| == BatchLimit(limit) {
      assert Take(scan, k') == scan[..k'];
    }
  }

  // A full page takes nothing more.
  lemma FullTakesNothing(rows0: seq<Event>, events: seq<Event>, req: Request, limit: nat, i: nat)
    requires i <= |events| && |rows0 + Kept(events[..i], req)| >= limit
    ensures Take(rows0 + Kept(events, req), limit) == Take(rows0 + Kept(events[..i], req), limit)
  {
    KeptConcat(events[..i], events[i..], req);
    assert events == events[..i] + events[i..];
    assert rows0 + Kept(events, req) == (rows0 + Kept(events[..i], req)) + Kept(events[i..], req);
  }

  lemma KeptNext(events: seq<Event>, req: Request, i: nat)
    requires i < |events|
    ensures Kept(events[..i + 1], req)
            == if Included(req, events[i]) then Kept(events[..i], req) + [events[i]] else Kept(events[..i], req)
  {
    assert events[..i + 1][..i] == events[..i];
  }

  // One more event on a page with room.
  lemma RoomTakesOne(s: seq<Event>, e: Event, limit: nat)
    requires |Take(s, limit)| < limit
    ensures Take(s + [e], limit) == Take(s, limit) + [e]
  {
  }

  // The inner loop: included events are appended until the page is full.
  method AppendIncluded(events: seq<Event>, req: Request, limit: nat, rows0: seq<Event>) returns (rows: seq<Event>)
    requires |rows0| <= limit
    ensures rows == Take(rows0 + Kept(events, req), limit)
  {
    rows := rows0;
    for i := 0 to |events|
      invariant rows == Take(rows0 + Kept(events[..i], req), limit)
    {
      KeptNext(events, req, i);
      if Included(req, events[i]) {
        if |rows| >= limit {
          FullTakesNothing(rows0, events, req, limit, i);
          return;
        }
        ghost var kept := Kept(events[..i], req);
        RoomTakesOne(rows0 + kept, events[i], limit);
        assert rows0 + (kept + [events[i]]) == (rows0 + kept) + [events[i]];
        rows := rows + [events[i]];
      }
    }
    assert events[..|events|] == events;
  }

  // One turn of the batch loop; `count` is the number of events read.
  method ReadBatch(ghost previous: seq<Event>, log: seq<Event>, req: Request, ghost from: nat, limit: nat, ghost n: nat,
                   rows: seq<Event>, next: nat)
    returns (rows': seq<Event>, next': nat, count: nat)
    requires FullPages(previous, req, from, limit, n, rows, next) && |rows| < limit
    requires ValidLog(log) && previous <= log
    ensures count <= BatchLimit(limit)
    ensures n < MAX_BATCHES ==>
              if count == BatchLimit(limit) && n + 1 < MAX_BATCHES && |rows'| < limit
              then FullPages(log, req, from, limit, n + 1, rows', next') && !LastBatch(log, req, from, limit, n + 1)
              else LastBatch(log, req, from, limit, n + 1)
                   && Outcome(log, req, from, limit, n + 1, Response(rows', next', count == BatchLimit(limit)))
  {
    var events := Pull(log, req, next, BatchLimit(limit));
    count := |events|;
    rows' := AppendIncluded(events, req, limit, rows);
    next' := After(next, events);
    PageContinuesScan(previous, log, req, from, limit, n, rows, next, events);
    PageRead(log, req, from, limit, n, rows, next, events, rows');
    if count == BatchLimit(limit) && n + 1 < MAX_BATCHES && |rows'| < limit {
      FullPageGoesOn(log, req, from, limit, n + 1, rows', next');
    } else if n < MAX_BATCHES {
      OutcomeIsLast(log, req, from, limit, n + 1, Response(rows', next', count == BatchLimit(limit)));
    }
  }

  lemma FullPageGoesOn(log: seq<Event>, req: Request, from: nat, limit: nat, n: nat, rows: seq<Event>, next: nat)
    requires FullPages(log, req, from, limit, n, rows, next) && |rows| < limit && n < MAX_BATCHES
    ensures !LastBatch(log, req, from, limit, n)
  {
    var k := Times(n, BatchLimit(limit));
    assert Take(Scan(log, req, from), k) == Scan(log, req, from)[..k];
  }

  lemma OutcomeIsLast(log: seq<Event>, req: Request, from: nat, limit: nat, n: nat, resp: Response)
    requires Outcome(log, req, from, limit, n, resp)
    ensures LastBatch(log, req, from, limit, n)
  {
  }

  // After n batches the call goes on.
  ghost predicate GoesOn(logs: seq<seq<Event>>, req: Request, from: nat, limit: nat, n: nat, rows: seq<Event>, next: nat)
    requires |logs| == MAX_BATCHES
  {
    && n < MAX_BATCHES && |rows| < limit
    && FullPages(logs[if n == 0 then 0 else n - 1], req, from, limit, n, rows, next)
    && forall m :: 1 <= m <= n ==> !Ends(logs, req, from, limit, m)
  }

  // One batch of a call under way.
  method NextBatch(logs: seq<seq<Event>>, req: Request, from: nat, limit: nat, n: nat, rows: seq<Event>, next: nat)
    returns (rows': seq<Event>, next': nat, count: nat)
    requires Growing(logs) && GoesOn(logs, req, from, limit, n, rows, next)
    ensures var full := count == BatchLimit(limit);
            if full && n + 1 < MAX_BATCHES && |rows'| < limit then GoesOn(logs, req, from, limit, n + 1, rows', next')
            else Answers(logs, req, from, limit, Response(rows', next', full))
    ensures count <= BatchLimit(limit)
  {
    rows', next', count :=
      ReadBatch(logs[if n == 0 then 0 else n - 1], logs[n], req, from, limit, n, rows, next);
    if !(count == BatchLimit(limit) && n + 1 < MAX_BATCHES && |rows'| < limit) {
      FirstEnd(logs, req, from, limit, 1, n + 1);
    }
  }

  // PullEvents, reading the log once per batch while other transactions append to it.
  method PullEvents(logs: seq<seq<Event>>, req: Request, from: nat, requestedSize: nat)
    returns (resp: Response)
    requires Growing(logs)
    ensures Answers(logs, req, from, PageToken.PageSize(requestedSize), resp)
  {
    var limit := PageToken.PageSize(requestedSize);
    var raw := BatchLimit(limit);
    var nextSequence, hasMore, rows := from, false, [];
    var batchCount, short := 0, false;
    while batchCount < MAX_BATCHES && |rows| < limit && !short
      invariant 0 <= batchCount <= MAX_BATCHES
      invariant if batchCount < MAX_BATCHES && |rows| < limit && !short
                then GoesOn(logs, req, from, limit, batchCount, rows, nextSequence)
                else Answers(logs, req, from, limit, Response(rows, nextSequence, hasMore))
    {
      var count;
      rows, nextSequence, count := NextBatch(logs, req, from, limit, batchCount, rows, nextSequence);
      batchCount := batchCount + 1;
      hasMore := count == raw;
      short := count < raw;
    }
    resp := Response(rows, nextSequence, hasMore);
  }

  lemma FirstEnd(logs: seq<seq<Event>>, req: Request, from: nat, limit: nat, n: nat, r: nat)
    requires |logs| == MAX_BATCHES && 1 <= n <= r <= MAX_BATCHES
    requires Ends(logs, req, from, limit, r) && forall m :: n <= m < r ==> !Ends(logs, req, from, limit, m)
    ensures BatchesRead(logs, req, from, limit, n) == r
  {
    var b := BatchesRead(logs, req, from, limit, n);
  }

  // --- what the outcome means ---

  // The included events of the first k scanned ones are the replay up to the k-th.
  lemma {:induction false} KeptIsReplay(log: seq<Event>, req: Request, from: nat, k: nat)
    requires ValidLog(log) && k <= |Scan(log, req, from)|
    ensures Kept(Scan(log, req, from)[..k], req)
            == Replay(log, req, from, After(from, Scan(log, req, from)[..k]))
    decreases k
  {
    var s := Scan(log, req, from);
    if k == 0 {
      ReplayEmpty(log, req, from, from);
    } else {
      var at := After(from, s[..k - 1]);
      KeptIsReplay(log, req, from, k - 1);
      if k > 1 {
        ScanDrop(log, req, from, k - 1);
        ScanElement(log, req, from, k - 2);
      }
      ScanHead(log, req, at);
      ReplayNext(log, req, from, at, s[k - 1]);
      assert s[..k][..k - 1] == s[..k - 1];
    }
  }

  // The rows are the first `limit` events of the replay over (from, next], so nothing is
  // lost exactly when that window holds at most `limit`.
  lemma PullReturnsReplay(log: seq<Event>, req: Request, from: nat, limit: nat, batches: nat, resp: Response)
    requires ValidLog(log) && Outcome(log, req, from, limit, batches, resp)
    ensures resp.rows == Take(Replay(log, req, from, resp.nextSequence), limit)
    ensures resp.rows == Replay(log, req, from, resp.nextSequence)
            <==> |Replay(log, req, from, resp.nextSequence)| <= limit
  {
    var s := Scan(log, req, from);
    KeptIsReplay(log, req, from, |Take(s, Times(batches, BatchLimit(limit)))|);
  }

  // A call is lossless exactly when the batches it reads keep no more events than the page
  // holds. The batches are those the input determines: up to the eighth, the first short one,
  // or the first with which the page is full.
  lemma LosslessIff(logs: seq<seq<Event>>, req: Request, from: nat, limit: nat, resp: Response)
    requires Growing(logs) && Answers(logs, req, from, limit, resp)
    ensures var n := BatchesRead(logs, req, from, limit, 1);
            var read := Take(Scan(logs[n - 1], req, from), Times(n, BatchLimit(limit)));
            resp.rows == Replay(logs[n - 1], req, from, resp.nextSequence) <==> |Kept(read, req)| <= limit
  {
    var n := BatchesRead(logs, req, from, limit, 1);
    var log := logs[n - 1];
    KeptIsReplay(log, req, from, |Take(Scan(log, req, from), Times(n, BatchLimit(limit)))|);
  }

  // Without hasMore the log is exhausted; with it a full batch has been consumed.
  lemma PullAdvances(log: seq<Event>, req: Request, from: nat, limit: nat, batches: nat, resp: Response)
    requires ValidLog(log) && Outcome(log, req, from, limit, batches, resp)
    ensures from <= resp.nextSequence
    ensures !resp.hasMore ==> Scan(log, req, resp.nextSequence) == []
    ensures resp.hasMore ==> |Scan(log, req, resp.nextSequence)| + BatchLimit(limit) <= |Scan(log, req, from)|
  {
    var s := Scan(log, req, from);
    var k := |Take(s, Times(batches, BatchLimit(limit)))|;
    if k > 0 {
      ScanDrop(log, req, from, k);
      ScanElement(log, req, from, k - 1);
    }
  }

  // When the request filters nothing out, a call is lossless exactly when the page is
  // larger than 128 rows or the rest of the log fits in it.
  lemma LosslessWithoutFiltering(log: seq<Event>, req: Request, from: nat, limit: nat, batches: nat, resp: Response)
    requires ValidLog(log) && Outcome(log, req, from, limit, batches, resp) && 1 <= limit
    requires forall e :: e in Scan(log, req, from) ==> Included(req, e)
    ensures resp.rows == Replay(log, req, from, resp.nextSequence)
            <==> limit > 128 || |Scan(log, req, from)| <= limit
  {
    var raw := BatchLimit(limit);
    var s := Scan(log, req, from);
    var scanned := Take(s, Times(batches, raw));
    PullReturnsReplay(log, req, from, limit, batches, resp);
    KeptIsReplay(log, req, from, |scanned|);
    AllKept(scanned, req);
    AllKept(Take(s, Times(batches - 1, raw)), req);
  }

  lemma {:induction false} AllKept(batch: seq<Event>, req: Request)
    requires forall e :: e in batch ==> Included(req, e)
    ensures Kept(batch, req) == batch
  {
    if batch != [] {
      assert batch[|batch| - 1] in batch;
      AllKept(batch[..|batch| - 1], req);
      assert batch == batch[..|batch| - 1] + [batch[|batch| - 1]];
    }
  }

  // A log of two messages pulled one row at a time: the response steps over the second for good.
  lemma RowCapLosesAnEvent()
    ensures var log := [Sample(1), Sample(2)];
            var req := Request([], true, true);
            && ValidLog(log)
            && Outcome(log, req, 0, 1, 1, Response([Sample(1)], 2, false))
            && Replay(log, req, 0, 2) == log
  {
    var req := Request([], true, true);
    var log := [Sample(1), Sample(2)];
    assert log[..1] == [Sample(1)] && log[..1][..0] == [];
    assert RequestedIDs(req) == {};
    assert Scan(log, req, 0) == log by {
      assert Scan(log[..1], req, 0) == [Sample(1)];
    }
    AllKept(log, req);
    assert Times(0, 32) == 0 && Times(1, 32) == 32;
    assert Replay(log[..1], req, 0, 2) == [Sample(1)];
  }

  function Sample(sequence: nat): Event {
    Event(sequence, "e", MessageCreated, "c", "a", "m", "", "", map[], 1)
  }

  // --- a client that follows NextSequence on a log that no longer grows ---

  // Every read of a call sees the same log.
  function Still(log: seq<Event>): (r: seq<seq<Event>>)
    ensures |r| == MAX_BATCHES && forall i :: 0 <= i < |r| ==> r[i] == log
  {
    [log, log, log, log, log, log, log, log]
  }

  // How many batches a call reads from here, and what they hold.
  function Reads(log: seq<Event>, req: Request, from: nat, limit: nat): nat {
    BatchesRead(Still(log), req, from, limit, 1)
  }

  function ReadFrom(log: seq<Event>, req: Request, from: nat, limit: nat): seq<Event> {
    Take(Scan(log, req, from), Times(Reads(log, req, from, limit), BatchLimit(limit)))
  }

  ghost predicate Walk(log: seq<Event>, req: Request, from: nat, limit: nat, resps: seq<Response>)
    decreases |resps|
  {
    resps != [] ==>
      && Answers(Still(log), req, from, limit, resps[0])
      && (|resps| > 1 ==> resps[0].hasMore)
      && Walk(log, req, resps[0].nextSequence, limit, resps[1..])
  }

  lemma AnswerIsOutcome(log: seq<Event>, req: Request, from: nat, limit: nat, resp: Response)
    requires Answers(Still(log), req, from, limit, resp)
    ensures Outcome(log, req, from, limit, Reads(log, req, from, limit), resp)
    ensures resp.nextSequence == After(from, ReadFrom(log, req, from, limit))
  {
  }

  // Every call but the last consumes a full batch of the log, so the walk is finite.
  lemma {:induction false} WalkTerminates(log: seq<Event>, req: Request, from: nat, limit: nat, resps: seq<Response>)
    requires ValidLog(log) && Walk(log, req, from, limit, resps) && resps != []
    ensures Times(|resps| - 1, BatchLimit(limit)) <= |Scan(log, req, from)|
    decreases |resps|
  {
    if |resps| > 1 {
      AnswerIsOutcome(log, req, from, limit, resps[0]);
      PullAdvances(log, req, from, limit, Reads(log, req, from, limit), resps[0]);
      WalkTerminates(log, req, resps[0].nextSequence, limit, resps[1..]);
    }
  }

  function Rows(resps: seq<Response>): seq<Event> {
    if resps == [] then [] else resps[0].rows + Rows(resps[1..])
  }

  // The batches of each of the next calls keep no more events than the page holds.
  ghost predicate AllFit(log: seq<Event>, req: Request, from: nat, limit: nat, calls: nat)
    decreases calls
  {
    calls > 0 ==>
      var read := ReadFrom(log, req, from, limit);
      |Kept(read, req)| <= limit && AllFit(log, req, After(from, read), limit, calls - 1)
  }

  // What one call of a walk returns, against the replay of its window.
  lemma WalkCall(log: seq<Event>, req: Request, from: nat, limit: nat, resp: Response)
    requires ValidLog(log) && Answers(Still(log), req, from, limit, resp)
    ensures from <= resp.nextSequence && resp.nextSequence == After(from, ReadFrom(log, req, from, limit))
    ensures Replay(log, req, from, resp.nextSequence) == Kept(ReadFrom(log, req, from, limit), req)
    ensures resp.rows == Take(Kept(ReadFrom(log, req, from, limit), req), limit)
    ensures !resp.hasMore ==> Scan(log, req, resp.nextSequence) == []
  {
    AnswerIsOutcome(log, req, from, limit, resp);
    PullAdvances(log, req, from, limit, Reads(log, req, from, limit), resp);
    KeptIsReplay(log, req, from, |ReadFrom(log, req, from, limit)|);
  }

  // Each response shows the first `limit` events of its window of the replay, and without
  // hasMore nothing is left to scan.
  ghost predicate Pages(log: seq<Event>, req: Request, from: nat, limit: nat, resps: seq<Response>)
    decreases |resps|
  {
    resps != [] ==>
      && from <= resps[0].nextSequence
      && resps[0].rows == Take(Replay(log, req, from, resps[0].nextSequence), limit)
      && (!resps[0].hasMore ==> Scan(log, req, resps[0].nextSequence) == [])
      && Pages(log, req, resps[0].nextSequence, limit, resps[1..])
  }

  ghost predicate WindowsFit(log: seq<Event>, req: Request, from: nat, limit: nat, resps: seq<Response>)
    decreases |resps|
  {
    resps != [] ==>
      && |Replay(log, req, from, resps[0].nextSequence)| <= limit
      && WindowsFit(log, req, resps[0].nextSequence, limit, resps[1..])
  }

  lemma {:induction false} WalkIsPages(log: seq<Event>, req: Request, from: nat, limit: nat, resps: seq<Response>)
    requires ValidLog(log) && Walk(log, req, from, limit, resps)
    ensures Pages(log, req, from, limit, resps)
    ensures WindowsFit(log, req, from, limit, resps) <==> AllFit(log, req, from, limit, |resps|)
    decreases |resps|
  {
    if resps != [] {
      WalkCall(log, req, from, limit, resps[0]);
      WalkIsPages(log, req, resps[0].nextSequence, limit, resps[1..]);
    }
  }

  lemma {:induction false} PagesExhaust(log: seq<Event>, req: Request, from: nat, limit: nat, resps: seq<Response>)
    requires Pages(log, req, from, limit, resps) && resps != [] && !resps[|resps| - 1].hasMore
    ensures Scan(log, req, resps[|resps| - 1].nextSequence) == []
    decreases |resps|
  {
    if |resps| > 1 {
      var rest := resps[1..];
      assert rest[|rest| - 1] == resps[|resps| - 1];
      PagesExhaust(log, req, resps[0].nextSequence, limit, rest);
    }
  }

  // The windows of pages that exhaust the log make up the replay.
  lemma {:induction false} PagesCover(log: seq<Event>, req: Request, from: nat, limit: nat, resps: seq<Response>, hi: nat)
    requires ValidLog(log) && Pages(log, req, from, limit, resps) && resps != []
    requires Scan(log, req, resps[|resps| - 1].nextSequence) == [] && hi >= resps[|resps| - 1].nextSequence
    ensures resps[0].nextSequence <= hi
    ensures var next := resps[0].nextSequence;
            Replay(log, req, from, hi)
            == Replay(log, req, from, next) + if |resps| == 1 then [] else Replay(log, req, next, hi)
    decreases |resps|
  {
    var next := resps[0].nextSequence;
    if |resps| == 1 {
      ScanMembers(log, req, next);
      ReplayStable(log, req, from, next, hi);
    } else {
      assert resps[1..][|resps| - 2] == resps[|resps| - 1];
      PagesCover(log, req, next, limit, resps[1..], hi);
      ReplaySplit(log, req, from, next, hi);
    }
  }

  lemma {:induction false} PagesIff(log: seq<Event>, req: Request, from: nat, limit: nat, resps: seq<Response>, hi: nat)
    requires ValidLog(log) && Pages(log, req, from, limit, resps) && resps != []
    requires Scan(log, req, resps[|resps| - 1].nextSequence) == [] && hi >= resps[|resps| - 1].nextSequence
    ensures |Rows(resps)| <= |Replay(log, req, from, hi)|
    ensures Rows(resps) == Replay(log, req, from, hi) <==> WindowsFit(log, req, from, limit, resps)
    decreases |resps|
  {
    var next, rest := resps[0].nextSequence, resps[1..];
    var window := Replay(log, req, from, next);
    PagesCover(log, req, from, limit, resps, hi);
    if |resps| == 1 {
      assert Rows(resps) == resps[0].rows;
      CoverIff(window, limit, [], []);
    } else {
      assert rest[|rest| - 1] == resps[|resps| - 1];
      PagesIff(log, req, next, limit, rest, hi);
      CoverIff(window, limit, Rows(rest), Replay(log, req, next, hi));
    }
  }

  // A finished walk returned the whole replay exactly when the batches of each of its calls keep
  // no more events than the page holds.
  lemma LosslessWalkIff(log: seq<Event>, req: Request, from: nat, limit: nat, resps: seq<Response>, hi: nat)
    requires ValidLog(log) && Walk(log, req, from, limit, resps)
    requires resps != [] && !resps[|resps| - 1].hasMore && hi >= resps[|resps| - 1].nextSequence
    ensures Rows(resps) == Replay(log, req, from, hi) <==> AllFit(log, req, from, limit, |resps|)
  {
    WalkIsPages(log, req, from, limit, resps);
    PagesExhaust(log, req, from, limit, resps);
    PagesIff(log, req, from, limit, resps, hi);
  }

  // A capped front followed by no more than the rest is the whole exactly when nothing was capped
  // and the rest is whole.
  lemma CoverIff(window: seq<Event>, limit: nat, rows: seq<Event>, rest: seq<Event>)
    requires |rows| <= |rest|
    ensures Take(window, limit) + rows == window + rest <==> |window| <= limit && rows == rest
  {
    var all := Take(window, limit) + rows;
    if all == window + rest {
      assert |all| == |window| + |rest|;
      assert rows == all[|window|..] && rest == (window + rest)[|window|..];
    }
  }

  // Replay over adjacent windows.
  lemma {:induction false} ReplaySplit(log: seq<Event>, req: Request, lo: nat, mid: nat, hi: nat)
    requires ValidLog(log) && lo <= mid <= hi
    ensures Replay(log, req, lo, hi) == Replay(log, req, lo, mid) + Replay(log, req, mid, hi)
  {
    if log != [] {
      var front, last := log[..|log| - 1], log[|log| - 1];
      ReplaySplit(front, req, lo, mid, hi);
      if last.sequence <= mid {
        forall x | x in front
          ensures x.sequence <= mid
        {
          InLog(front, x);
        }
        ReplayNothing(front, req, mid, hi);
      }
    }
  }

  lemma {:induction false} ReplayNothing(log: seq<Event>, req: Request, lo: nat, hi: nat)
    requires forall x :: x in log ==> x.sequence <= lo
    ensures Replay(log, req, lo, hi) == []
  {
    if log != [] {
      assert log[|log| - 1] in log;
      ReplayNothing(log[..|log| - 1], req, lo, hi);
    }
  }
}
