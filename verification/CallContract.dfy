// What the call-event stream sends, said in the fields of requests and events alone.
module CallContract {
  import opened Text
  import opened CallStream
  import PageToken

  // Addressed to nobody in particular, or to this account and this device.
  ghost predicate IsFor(req: CallRequest, e: CallEvent) {
    && (e.targetAccountID == "" || e.targetAccountID == TrimSpace(req.accountID))
    && (e.targetDeviceID == "" || e.targetDeviceID == TrimSpace(req.deviceID))
  }

  // Of the call that is named, else of the conversation.
  ghost predicate BelongsTo(req: CallRequest, e: CallEvent) {
    if TrimSpace(req.callID) != "" then e.callID == TrimSpace(req.callID)
    else e.conversationID == TrimSpace(req.conversationID)
  }

  lemma {:induction false} WantedIff(req: CallRequest, e: CallEvent)
    ensures Wanted(req, e) <==> IsFor(req, e) && BelongsTo(req, e)
  {
  }

  // Turn i sends this event directly, under the raw comparison with the request's identifiers.
  ghost predicate SentDirectly(req: CallRequest, start: nat, script: seq<Turn>, budget: nat, i: nat, e: CallEvent)
    requires i < |script|
  {
    && SendsSignal(req, start, script, budget, i)
    && e == script[i].stimulus.signal.event
    && e.sequence > Streamed(req, start, script[..i], budget).from
    && (req.callID == "" || e.callID == req.callID)
    && (req.conversationID == "" || e.conversationID == req.conversationID)
  }

  ghost predicate DirectUpTo(req: CallRequest, start: nat, script: seq<Turn>, budget: nat, n: nat, e: CallEvent)
    requires n <= |script|
  {
    exists i :: 0 <= i < n && SentDirectly(req, start, script, budget, i, e)
  }

  // Sent by a page, or directly.
  ghost predicate Accounted(req: CallRequest, start: nat, script: seq<Turn>, budget: nat, n: nat, e: CallEvent)
    requires n <= |script|
  {
    (IsFor(req, e) && BelongsTo(req, e)) || DirectUpTo(req, start, script, budget, n, e)
  }

  ghost predicate AllAccounted(req: CallRequest, start: nat, script: seq<Turn>, budget: nat, n: nat, out: seq<CallEvent>)
    requires n <= |script|
  {
    forall j :: 0 <= j < |out| ==> Accounted(req, start, script, budget, n, out[j])
  }

  // Every event of a page is for this subscriber and of what it asked for.
  lemma {:induction false} PagesAreForSubscriber(log: seq<CallEvent>, req: CallRequest, from: nat, k: nat, j: nat)
    requires j < |Pull(log, req, from, k)|
    ensures IsFor(req, Pull(log, req, from, k)[j]) && BelongsTo(req, Pull(log, req, from, k)[j])
  {
    PagesAreWanted(log, req, from, k, 0);
    WantedIff(req, Pull(log, req, from, k)[j]);
  }

  lemma {:induction false} StillAccounted(req: CallRequest, start: nat, script: seq<Turn>, budget: nat, n: nat, out: seq<CallEvent>)
    requires n < |script| && AllAccounted(req, start, script, budget, n, out)
    ensures AllAccounted(req, start, script, budget, n + 1, out)
  {
    forall j | 0 <= j < |out|
      ensures Accounted(req, start, script, budget, n + 1, out[j])
    {
      assert Accounted(req, start, script, budget, n, out[j]);
      if DirectUpTo(req, start, script, budget, n, out[j]) {
        var i :| 0 <= i < n && SentDirectly(req, start, script, budget, i, out[j]);
        assert SentDirectly(req, start, script, budget, i, out[j]);
      }
    }
  }

  lemma {:induction false} AccountedJoin(req: CallRequest, start: nat, script: seq<Turn>, budget: nat, n: nat,
                                         a: seq<CallEvent>, b: seq<CallEvent>)
    requires n <= |script| && AllAccounted(req, start, script, budget, n, a) && AllAccounted(req, start, script, budget, n, b)
    ensures AllAccounted(req, start, script, budget, n, a + b)
  {
  }

  lemma {:induction false} PageAccounted(req: CallRequest, start: nat, script: seq<Turn>, budget: nat, n: nat,
                                         log: seq<CallEvent>, from: nat, sent: seq<CallEvent>)
    requires n <= |script| && sent <= Pull(log, req, from, PageToken.DEFAULT_PAGE_SIZE)
    ensures AllAccounted(req, start, script, budget, n, sent)
  {
    forall j | 0 <= j < |sent|
      ensures Accounted(req, start, script, budget, n, sent[j])
    {
      PagesAreForSubscriber(log, req, from, PageToken.DEFAULT_PAGE_SIZE, j);
    }
  }

  // One turn adds the start of a page, or one directly sent event, or nothing.
  lemma {:induction false} TurnAdds(req: CallRequest, start: nat, script: seq<Turn>, budget: nat, n: nat)
    returns (added: seq<CallEvent>)
    requires n < |script|
    ensures Streamed(req, start, script[..n + 1], budget).out == Streamed(req, start, script[..n], budget).out + added
    ensures AllAccounted(req, start, script, budget, n + 1, added)
  {
    assert script[..n + 1][..n] == script[..n];
    var c, turn := Streamed(req, start, script[..n], budget), script[n];
    var events := Pull(turn.pullLog, req, c.from, PageToken.DEFAULT_PAGE_SIZE);
    added := [];
    if c.open && events != [] {
      added := if |events| > c.left then events[..c.left] else events;
      PageAccounted(req, start, script, budget, n + 1, turn.pullLog, c.from, added);
    } else if SendsSignal(req, start, script, budget, n) {
      added := [turn.stimulus.signal.event];
      assert SentDirectly(req, start, script, budget, n, added[0]);
    }
  }

  // Over every script and budget: what a call sends is for this subscriber and of what it asked
  // for, or was sent directly by a turn whose signal matched the request's identifiers.
  lemma {:induction false} SentIsAccounted(req: CallRequest, start: nat, script: seq<Turn>, budget: nat, n: nat)
    requires n <= |script|
    ensures AllAccounted(req, start, script, budget, n, Streamed(req, start, script[..n], budget).out)
    decreases n
  {
    if n > 0 {
      SentIsAccounted(req, start, script, budget, n - 1);
      var before := Streamed(req, start, script[..n - 1], budget).out;
      var added := TurnAdds(req, start, script, budget, n - 1);
      StillAccounted(req, start, script, budget, n - 1, before);
      AccountedJoin(req, start, script, budget, n, before, added);
    }
  }

  // Turn i sends an event directly although one that is for this subscriber came between.
  ghost predicate JumpsOverOne(req: CallRequest, start: nat, script: seq<Turn>, budget: nat, i: nat)
    requires i < |script|
  {
    && SendsSignal(req, start, script, budget, i)
    && exists x :: x in script[i].wakeLog && IsFor(req, x) && BelongsTo(req, x)
          && Streamed(req, start, script[..i], budget).from < x.sequence < script[i].stimulus.signal.event.sequence
  }

  lemma {:induction false} JumpsIff(req: CallRequest, start: nat, script: seq<Turn>, budget: nat, i: nat)
    requires i < |script|
    ensures JumpsOverNothing(req, start, script, budget, i) <==> !JumpsOverOne(req, start, script, budget, i)
  {
    forall x
      ensures Wanted(req, x) <==> IsFor(req, x) && BelongsTo(req, x)
    {
      WantedIff(req, x);
    }
    if JumpsOverOne(req, start, script, budget, i) {
      var x :| x in script[i].wakeLog && IsFor(req, x) && BelongsTo(req, x)
               && Streamed(req, start, script[..i], budget).from < x.sequence < script[i].stimulus.signal.event.sequence;
      assert InGap(req, start, script, budget, i, x.sequence);
    }
  }

  // Every log event up to the position that is for this subscriber and of what it asked for has
  // been sent, exactly when no direct send jumped over one.
  lemma {:induction false} AllForSubscriberSentIff(req: CallRequest, start: nat, script: seq<Turn>, budget: nat)
    requires ValidScript(script)
    ensures var c := Streamed(req, start, script, budget);
            (forall e :: e in LogAt(script) && IsFor(req, e) && BelongsTo(req, e) && start < e.sequence <= c.from ==> e in c.out)
            <==> forall i :: 0 <= i < |script| ==> !JumpsOverOne(req, start, script, budget, i)
  {
    GapFreeIff(req, start, script, budget);
    forall e
      ensures Wanted(req, e) <==> IsFor(req, e) && BelongsTo(req, e)
    {
      WantedIff(req, e);
    }
    forall i | 0 <= i < |script|
      ensures JumpsOverNothing(req, start, script, budget, i) <==> !JumpsOverOne(req, start, script, budget, i)
    {
      JumpsIff(req, start, script, budget, i);
    }
  }
}
