// The durable conversation event log and the reads the gateway makes of it.
// Account membership is not part of the log read, so a log here holds the
// events the account can see.
module EventLog {
  import opened Text

  datatype EventType =
    | ConversationMembers | UserUpdated | AdminActionRecorded
    | MessageCreated | MessageEdited | OtherEvent(name: string)

  // Times are integers; 0 is Go's zero time.
  datatype Event = Event(
    sequence: nat, eventID: string, eventType: EventType, conversationID: string,
    actorAccountID: string, messageID: string, payloadType: string, payload: string,
    metadata: map<string, string>, createdAt: int)

  const TWO_64 := 0x1_0000_0000_0000_0000

  // What SaveEvent leaves in a stored row: trimmed, non-empty identifiers.
  predicate Stored(e: Event) {
    && 0 < e.sequence < TWO_64
    && e.eventID != "" && Trimmed(e.eventID)
    && e.conversationID != "" && Trimmed(e.conversationID)
  }

  predicate CanAppend(log: seq<Event>, e: Event) {
    Stored(e) && LastSequence(log) < e.sequence
  }

  // A log grows by appends that carry larger sequences.
  predicate ValidLog(log: seq<Event>) {
    log == [] || (ValidLog(log[..|log| - 1]) && CanAppend(log[..|log| - 1], log[|log| - 1]))
  }

  function LastSequence(log: seq<Event>): nat {
    if log == [] then 0 else log[|log| - 1].sequence
  }

  datatype Request = Request(conversationIDs: seq<string>, includePresence: bool, includeModeration: bool)

  // uniqueIDs of the conversation service: trimmed, blanks dropped (duplicates do not matter to a set).
  function RequestedIDs(req: Request): set<string> {
    set c | c in req.conversationIDs && TrimSpace(c) != "" :: TrimSpace(c)
  }

  // The WHERE clause of EventsAfterSequence on the conversation column.
  predicate Requested(req: Request, e: Event) {
    RequestedIDs(req) == {} || e.conversationID in RequestedIDs(req)
  }

  // includeSyncEvent.
  predicate Included(req: Request, e: Event) {
    match e.eventType
    case UserUpdated => if e.payloadType == "presence" then req.includePresence else true
    case AdminActionRecorded => if e.payloadType == "moderation_action" then req.includeModeration else true
    case _ => true
  }

  // Every requested event after `from`, in order.
  function Scan(log: seq<Event>, req: Request, from: nat): (r: seq<Event>)
    ensures |r| <= |log|
  {
    if log == [] then [] else
    var last := log[|log| - 1];
    var r := Scan(log[..|log| - 1], req, from);
    if last.sequence > from && Requested(req, last) then r + [last] else r
  }

  function Min(a: nat, b: nat): nat { if a < b then a else b }

  function Take<T>(s: seq<T>, k: nat): (r: seq<T>)
    ensures |r| == Min(|s|, k) && r <= s
  {
    s[..Min(|s|, k)]
  }

  // EventsAfterSequence with a limit.
  function Pull(log: seq<Event>, req: Request, from: nat, limit: nat): seq<Event> {
    Take(Scan(log, req, from), limit)
  }

  // The sequence reached after dealing with `scanned`.
  function After(from: nat, scanned: seq<Event>): nat {
    if scanned == [] then from else scanned[|scanned| - 1].sequence
  }

  // The events of a batch that includeSyncEvent lets through.
  function Kept(batch: seq<Event>, req: Request): (r: seq<Event>)
    ensures |r| <= |batch|
  {
    if batch == [] then [] else
    var last := batch[|batch| - 1];
    var r := Kept(batch[..|batch| - 1], req);
    if Included(req, last) then r + [last] else r
  }

  // Plain replay: the requested and included events with lo < sequence <= hi.
  function Replay(log: seq<Event>, req: Request, lo: nat, hi: nat): (r: seq<Event>)
    ensures |r| <= |log|
  {
    if log == [] then [] else
    var last := log[|log| - 1];
    var r := Replay(log[..|log| - 1], req, lo, hi);
    if lo < last.sequence <= hi && Requested(req, last) && Included(req, last) then r + [last] else r
  }

  // e is the first requested event of the log after `from`.
  ghost predicate Next(log: seq<Event>, req: Request, from: nat, e: Event) {
    && e in log && Requested(req, e) && from < e.sequence
    && forall x :: x in log && Requested(req, x) && from < x.sequence ==> e.sequence <= x.sequence
  }

  // The batch lists requested events of the log after `from` without a gap.
  ghost predicate Chain(log: seq<Event>, req: Request, from: nat, batch: seq<Event>)
    decreases |batch|
  {
    batch == [] || (Next(log, req, from, batch[0]) && Chain(log, req, batch[0].sequence, batch[1..]))
  }

  lemma {:induction false} InLog(log: seq<Event>, e: Event)
    requires ValidLog(log) && e in log
    ensures Stored(e) && e.sequence <= LastSequence(log)
  {
    var front := log[..|log| - 1];
    if e != log[|log| - 1] {
      InLog(front, e);
    }
  }

  // Stored rows, strictly ascending.
  lemma {:induction false} ValidLogIsSorted(log: seq<Event>, i: nat, j: nat)
    requires ValidLog(log) && i < j < |log|
    ensures Stored(log[i]) && Stored(log[j]) && log[i].sequence < log[j].sequence
  {
    var front := log[..|log| - 1];
    if j < |log| - 1 {
      ValidLogIsSorted(front, i, j);
    } else {
      InLog(front, front[i]);
    }
  }

  lemma SameSequenceSameEvent(log: seq<Event>, a: Event, b: Event)
    requires ValidLog(log) && a in log && b in log && a.sequence == b.sequence
    ensures a == b
  {
    var i :| 0 <= i < |log| && log[i] == a;
    var j :| 0 <= j < |log| && log[j] == b;
    if i < j {
      ValidLogIsSorted(log, i, j);
    } else if j < i {
      ValidLogIsSorted(log, j, i);
    }
  }

  lemma FrontBelowLast(log: seq<Event>)
    requires ValidLog(log) && log != []
    ensures forall x :: x in log[..|log| - 1] ==> x.sequence < log[|log| - 1].sequence
    ensures forall x :: x in log <==> x in log[..|log| - 1] || x == log[|log| - 1]
  {
    var front := log[..|log| - 1];
    assert log == front + [log[|log| - 1]];
    forall x | x in front
      ensures x.sequence < log[|log| - 1].sequence
    {
      InLog(front, x);
    }
  }

  lemma AppendValid(log: seq<Event>, e: Event)
    requires ValidLog(log) && CanAppend(log, e)
    ensures ValidLog(log + [e])
  {
    assert (log + [e])[..|log|] == log;
  }

  lemma AppendIsLargest(log: seq<Event>, e: Event)
    requires ValidLog(log) && CanAppend(log, e)
    ensures forall x :: x in log ==> x.sequence < e.sequence
  {
    forall x | x in log
      ensures x.sequence < e.sequence
    {
      InLog(log, x);
    }
  }

  // --- what replay contains ---

  lemma {:induction false} ReplayMembers(log: seq<Event>, req: Request, lo: nat, hi: nat)
    ensures forall e :: e in Replay(log, req, lo, hi) <==>
              e in log && lo < e.sequence <= hi && Requested(req, e) && Included(req, e)
  {
    if log != [] {
      assert log == log[..|log| - 1] + [log[|log| - 1]];
      ReplayMembers(log[..|log| - 1], req, lo, hi);
    }
  }

  lemma {:induction false} ReplayValid(log: seq<Event>, req: Request, lo: nat, hi: nat)
    requires ValidLog(log)
    ensures ValidLog(Replay(log, req, lo, hi))
    ensures LastSequence(Replay(log, req, lo, hi)) <= LastSequence(log)
  {
    if log != [] {
      var front, last := log[..|log| - 1], log[|log| - 1];
      ReplayValid(front, req, lo, hi);
      if lo < last.sequence <= hi && Requested(req, last) && Included(req, last) {
        AppendValid(Replay(front, req, lo, hi), last);
      }
    }
  }

  // Replay holds exactly the selected events of the log, once each and in order.
  lemma ReplayExact(log: seq<Event>, req: Request, lo: nat, hi: nat)
    requires ValidLog(log)
    ensures forall e :: e in Replay(log, req, lo, hi) <==>
              e in log && lo < e.sequence <= hi && Requested(req, e) && Included(req, e)
    ensures ValidLog(Replay(log, req, lo, hi))
  {
    ReplayMembers(log, req, lo, hi);
    ReplayValid(log, req, lo, hi);
  }

  // Raising the bound past no selected event changes nothing.
  lemma {:induction false} ReplayStable(log: seq<Event>, req: Request, lo: nat, hi: nat, hi': nat)
    requires hi <= hi'
    requires forall x :: x in log && Requested(req, x) && hi < x.sequence ==> hi' < x.sequence
    ensures Replay(log, req, lo, hi) == Replay(log, req, lo, hi')
  {
    if log != [] {
      assert log[|log| - 1] in log;
      ReplayStable(log[..|log| - 1], req, lo, hi, hi');
    }
  }

  // Stepping the bound to the next requested event adds that event, if it is included.
  lemma {:induction false} ReplayNext(log: seq<Event>, req: Request, lo: nat, from: nat, e: Event)
    requires ValidLog(log) && lo <= from && Next(log, req, from, e)
    ensures Replay(log, req, lo, e.sequence) == Replay(log, req, lo, from) + Kept([e], req)
  {
    var last, front := log[|log| - 1], log[..|log| - 1];
    FrontBelowLast(log);
    assert Kept([e], req) == if Included(req, e) then [e] else [];
    if last == e {
      ReplayStable(front, req, lo, from, e.sequence);
    } else {
      ReplayNext(front, req, lo, from, e);
    }
  }

  // Appending a larger sequence leaves every bounded replay alone.
  lemma ReplayAppend(log: seq<Event>, req: Request, lo: nat, hi: nat, e: Event)
    requires hi < e.sequence || hi <= lo
    ensures Replay(log + [e], req, lo, hi) == Replay(log, req, lo, hi)
  {
    assert (log + [e])[..|log|] == log;
  }

  lemma {:induction false} ReplayEmpty(log: seq<Event>, req: Request, lo: nat, hi: nat)
    requires hi <= lo
    ensures Replay(log, req, lo, hi) == []
  {
    if log != [] {
      ReplayEmpty(log[..|log| - 1], req, lo, hi);
    }
  }

  // A smaller bound gives a prefix.
  lemma {:induction false} ReplayPrefix(log: seq<Event>, req: Request, lo: nat, hi: nat, hi': nat)
    requires ValidLog(log) && hi <= hi'
    ensures Replay(log, req, lo, hi) <= Replay(log, req, lo, hi')
  {
    if log != [] {
      var front := log[..|log| - 1];
      FrontBelowLast(log);
      ReplayPrefix(front, req, lo, hi, hi');
      if log[|log| - 1].sequence <= hi {
        ReplayStable(front, req, lo, hi, hi');
      }
    }
  }

  // --- what a pull returns ---

  lemma {:induction false} ScanMembers(log: seq<Event>, req: Request, from: nat)
    ensures forall e :: e in Scan(log, req, from) <==> e in log && e.sequence > from && Requested(req, e)
  {
    if log != [] {
      assert log == log[..|log| - 1] + [log[|log| - 1]];
      ScanMembers(log[..|log| - 1], req, from);
    }
  }

  lemma ScanElement(log: seq<Event>, req: Request, from: nat, i: nat)
    requires i < |Scan(log, req, from)|
    ensures var e := Scan(log, req, from)[i]; e in log && e.sequence > from && Requested(req, e)
  {
    ScanMembers(log, req, from);
    assert Scan(log, req, from)[i] in Scan(log, req, from);
  }

  lemma {:induction false} ScanValid(log: seq<Event>, req: Request, from: nat)
    requires ValidLog(log)
    ensures ValidLog(Scan(log, req, from))
    ensures LastSequence(Scan(log, req, from)) <= LastSequence(log)
  {
    if log != [] {
      var front, last := log[..|log| - 1], log[|log| - 1];
      ScanValid(front, req, from);
      if last.sequence > from && Requested(req, last) {
        AppendValid(Scan(front, req, from), last);
      }
    }
  }

  // The scan lists every requested event after `from`, strictly ascending.
  lemma ScanExact(log: seq<Event>, req: Request, from: nat)
    requires ValidLog(log)
    ensures ValidLog(Scan(log, req, from))
    ensures forall e :: e in Scan(log, req, from) <==> e in log && e.sequence > from && Requested(req, e)
  {
    ScanMembers(log, req, from);
    ScanValid(log, req, from);
  }

  // A non-empty scan starts with the next requested event.
  lemma ScanHead(log: seq<Event>, req: Request, from: nat)
    requires ValidLog(log) && Scan(log, req, from) != []
    ensures Next(log, req, from, Scan(log, req, from)[0])
  {
    var s := Scan(log, req, from);
    ScanExact(log, req, from);
    assert s[0] in s;
    forall x | x in log && Requested(req, x) && from < x.sequence
      ensures s[0].sequence <= x.sequence
    {
      var k :| 0 <= k < |s| && s[k] == x;
      if k > 0 {
        ValidLogIsSorted(s, 0, k);
      }
    }
  }

  // Scanning on from the j-th scanned event gives the rest of the scan.
  lemma {:induction false} ScanDrop(log: seq<Event>, req: Request, from: nat, j: nat)
    requires ValidLog(log) && 0 < j <= |Scan(log, req, from)|
    ensures Scan(log, req, Scan(log, req, from)[j - 1].sequence) == Scan(log, req, from)[j..]
  {
    var front, last := log[..|log| - 1], log[|log| - 1];
    var t := Scan(front, req, from);
    FrontBelowLast(log);
    if j <= |t| {
      ScanDrop(front, req, from, j);
      ScanElement(front, req, from, j - 1);
      InLog(front, t[j - 1]);
    } else {
      ScanAfterEnd(front, req, last.sequence);
    }
  }

  lemma {:induction false} ScanAfterEnd(log: seq<Event>, req: Request, from: nat)
    requires forall x :: x in log ==> x.sequence <= from
    ensures Scan(log, req, from) == []
  {
    if log != [] {
      assert log[|log| - 1] in log;
      ScanAfterEnd(log[..|log| - 1], req, from);
    }
  }

  // Every pull is a gap-free chain.
  lemma {:induction false} PullChain(log: seq<Event>, req: Request, from: nat, limit: nat)
    requires ValidLog(log)
    ensures Chain(log, req, from, Pull(log, req, from, limit))
    decreases limit
  {
    var scan := Scan(log, req, from);
    var batch := Pull(log, req, from, limit);
    if batch != [] {
      ScanHead(log, req, from);
      ScanDrop(log, req, from, 1);
      assert batch[1..] == Take(scan[1..], limit - 1);
      PullChain(log, req, scan[0].sequence, limit - 1);
    }
  }

  // Appends keep a chain a chain.
  lemma {:induction false} ChainAppend(log: seq<Event>, req: Request, from: nat, batch: seq<Event>, e: Event)
    requires ValidLog(log) && CanAppend(log, e) && Chain(log, req, from, batch)
    ensures Chain(log + [e], req, from, batch)
    decreases |batch|
  {
    if batch != [] {
      AppendIsLargest(log, e);
      ChainAppend(log, req, batch[0].sequence, batch[1..], e);
    }
  }

  // --- reads of a log that has grown since ---

  lemma {:induction false} ValidPrefix(log: seq<Event>, log': seq<Event>)
    requires ValidLog(log') && log <= log'
    ensures ValidLog(log) && LastSequence(log) <= LastSequence(log')
    decreases |log'|
  {
    if |log| < |log'| {
      ValidPrefix(log, log'[..|log'| - 1]);
    } else {
      assert log == log';
    }
  }

  lemma {:induction false} ReplayGrow(log: seq<Event>, log': seq<Event>, req: Request, lo: nat, hi: nat)
    requires ValidLog(log') && log <= log' && (hi <= LastSequence(log) || hi <= lo)
    ensures Replay(log', req, lo, hi) == Replay(log, req, lo, hi)
    decreases |log'|
  {
    if |log| < |log'| {
      var front := log'[..|log'| - 1];
      ValidPrefix(log, front);
      ReplayGrow(log, front, req, lo, hi);
    } else {
      assert log == log';
    }
  }

  lemma {:induction false} ScanGrow(log: seq<Event>, log': seq<Event>, req: Request, from: nat)
    requires log <= log'
    ensures Scan(log, req, from) <= Scan(log', req, from)
    decreases |log'|
  {
    if |log| < |log'| {
      ScanGrow(log, log'[..|log'| - 1], req, from);
    } else {
      assert log == log';
    }
  }
}
