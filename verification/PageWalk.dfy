// Walks over paged lists: a client sends each response's token back until it is empty.
module PageWalk {
  import opened Outcomes
  import opened Base64Url
  import opened PageToken

  function Min(a: nat, b: nat): nat { if a < b then a else b }

  datatype Page<T> = Page(rows: seq<T>, nextToken: Bytes)

  // How an endpoint reads and mints tokens.
  datatype Codec = Codec(decode: Bytes -> Result<nat>, mint: nat -> Bytes)

  function OffsetCodec(prefix: Bytes): Codec {
    Codec(token => DecodeOffset(token, prefix), (offset: nat) => if offset < TWO_63 then OffsetToken(prefix, offset) else [])
  }

  function SequenceCodec(prefix: Bytes): Codec {
    Codec(token => DecodeSequence(token, prefix),
          (sequence: nat) => if sequence < TWO_64 then SequenceToken(prefix, sequence) else [])
  }

  // Minted numbers come back, and only 0 has the empty token.
  ghost predicate Sound(codec: Codec, bound: nat) {
    && codec.decode([]) == Ok(0)
    && forall n: nat :: n < bound ==> codec.decode(codec.mint(n)) == Ok(n) && (codec.mint(n) == [] <==> n == 0)
  }

  lemma OffsetCodecSound(prefix: Bytes)
    requires COLON !in prefix
    ensures Sound(OffsetCodec(prefix), TWO_63)
  {
    var codec := OffsetCodec(prefix);
    assert codec.decode([]) == Ok(0);
    forall n: nat | n < TWO_63
      ensures codec.decode(codec.mint(n)) == Ok(n) && (codec.mint(n) == [] <==> n == 0)
    {
      OffsetRoundTrip(prefix, n);
      if n > 0 {
        MintedIsNotBlank(prefix, n);
      }
    }
  }

  lemma SequenceCodecSound(prefix: Bytes)
    requires COLON !in prefix
    ensures Sound(SequenceCodec(prefix), TWO_64)
  {
    var codec := SequenceCodec(prefix);
    assert codec.decode([]) == Ok(0);
    forall n: nat | n < TWO_64
      ensures codec.decode(codec.mint(n)) == Ok(n) && (codec.mint(n) == [] <==> n == 0)
    {
      SequenceRoundTrip(prefix, n);
      if n > 0 {
        MintedIsNotBlank(prefix, n);
      }
    }
  }

  // Guarded endpoints mint a token only when rows remain; the others always mint one.
  datatype Endpoint = Endpoint(codec: Codec, guarded: bool)

  // A page of a list endpoint; None is the invalid-token error.
  function ListPage<T>(ep: Endpoint, rows: seq<T>, token: Bytes, size: nat): Option<Page<T>> {
    match ep.codec.decode(token)
    case Err => None
    case Ok(offset) =>
      var end := Min(offset + size, |rows|);
      Some(Page(if offset < |rows| then rows[offset..end] else [], TokenAt(ep, end, |rows|)))
  }

  // The next token of a page that ends at `end`.
  function TokenAt(ep: Endpoint, end: nat, n: nat): Bytes {
    if ep.guarded && end >= n then [] else ep.codec.mint(end)
  }

  // The handler itself: slice, copy row by row, mint the next token.
  method ListRows<T>(ep: Endpoint, rows: seq<T>, token: Bytes, requestedSize: nat) returns (page: Option<Page<T>>)
    ensures page == ListPage(ep, rows, token, PageSize(requestedSize))
  {
    var decoded := ep.codec.decode(token);
    if decoded.Err? {
      return None;
    }
    var offset := decoded.value;
    var end := offset + PageSize(requestedSize);
    if end > |rows| {
      end := |rows|;
    }
    var slice := if offset < |rows| then rows[offset..end] else [];
    var result := [];
    for i := 0 to |slice|
      invariant result == slice[..i]
    {
      result := result + [slice[i]];
    }
    var nextToken := [];
    if !ep.guarded || end < |rows| {
      nextToken := ep.codec.mint(end);
    }
    assert slice[..|slice|] == slice;
    page := Some(Page(result, nextToken));
  }

  // pages[i] answers token i; the first request carries no token, and the client goes on
  // only with a non-empty one.
  ghost predicate Walk<T>(ep: Endpoint, rows: seq<T>, size: nat, token: Bytes, pages: seq<Page<T>>)
    decreases |pages|
  {
    pages != [] ==>
      && ListPage(ep, rows, token, size) == Some(pages[0])
      && (|pages| > 1 ==> pages[0].nextToken != [])
      && Walk(ep, rows, size, pages[0].nextToken, pages[1..])
  }

  function Concat<T>(pages: seq<Page<T>>): seq<T> {
    if pages == [] then [] else pages[0].rows + Concat(pages[1..])
  }

  // The offset after k more pages.
  function Reach(offset: nat, n: nat, size: nat, k: nat): (r: nat)
    requires offset <= n
    ensures offset <= r <= n
    decreases k
  {
    if k == 0 then offset else Reach(Min(offset + size, n), n, size, k - 1)
  }

  // After k pages the client holds the rows up to where they reach, and the token for there.
  lemma {:induction false} WalkFrom<T>(ep: Endpoint, rows: seq<T>, size: nat, offset: nat, token: Bytes,
                                       pages: seq<Page<T>>)
    requires Sound(ep.codec, TWO_63) && offset <= |rows| < TWO_63
    requires ep.codec.decode(token) == Ok(offset)
    requires Walk(ep, rows, size, token, pages)
    ensures Concat(pages) == rows[offset..Reach(offset, |rows|, size, |pages|)]
    ensures pages != [] ==>
              pages[|pages| - 1].nextToken == TokenAt(ep, Reach(offset, |rows|, size, |pages|), |rows|)
    decreases |pages|
  {
    if pages != [] {
      var end := Min(offset + size, |rows|);
      var rest := pages[1..];
      assert pages[0] == Page(rows[offset..end], TokenAt(ep, end, |rows|));
      if rest != [] {
        WalkFrom(ep, rows, size, end, pages[0].nextToken, rest);
        assert rest[|rest| - 1] == pages[|pages| - 1];
      } else {
        assert Concat(rest) == [];
      }
      SliceJoin(rows, offset, end, Reach(end, |rows|, size, |rest|));
    }
  }

  lemma SliceJoin<T>(rows: seq<T>, a: nat, b: nat, c: nat)
    requires a <= b <= c <= |rows|
    ensures rows[a..b] + rows[b..c] == rows[a..c]
  {
  }

  // k full pages.
  function Times(k: nat, size: nat): nat {
    if k == 0 then 0 else size + Times(k - 1, size)
  }

  lemma {:induction false} ReachEnd(offset: nat, n: nat, size: nat, k: nat)
    requires offset <= n
    ensures Reach(offset, n, size, k) == Min(offset + Times(k, size), n)
    decreases k
  {
    if k > 0 {
      ReachEnd(Min(offset + size, n), n, size, k - 1);
    }
  }

  // Guarded endpoints: the walk gets an empty token exactly when its pages cover the list,
  // and then it has returned the whole list.
  lemma {:induction false} GuardedWalk<T>(ep: Endpoint, rows: seq<T>, size: nat, pages: seq<Page<T>>)
    requires Sound(ep.codec, TWO_63) && ep.guarded && |rows| < TWO_63 && size >= 1
    requires Walk(ep, rows, size, [], pages) && pages != []
    ensures Concat(pages) == rows[..Min(Times(|pages|, size), |rows|)]
    ensures pages[|pages| - 1].nextToken == [] <==> Times(|pages|, size) >= |rows|
    ensures pages[|pages| - 1].nextToken == [] ==> Concat(pages) == rows
  {
    WalkReaches(ep, rows, size, pages);
  }

  // Where a walk from the start has got to after its pages.
  lemma {:induction false} WalkReaches<T>(ep: Endpoint, rows: seq<T>, size: nat, pages: seq<Page<T>>)
    requires Sound(ep.codec, TWO_63) && |rows| < TWO_63 && size >= 1
    requires Walk(ep, rows, size, [], pages) && pages != []
    ensures var end := Min(Times(|pages|, size), |rows|);
            && Concat(pages) == rows[..end]
            && pages[|pages| - 1].nextToken == TokenAt(ep, end, |rows|)
            && end <= |rows| && (rows != [] ==> end > 0)
  {
    WalkFrom(ep, rows, size, 0, [], pages);
    ReachEnd(0, |rows|, size, |pages|);
    assert Times(|pages|, size) >= size;
  }

  // No guarded walk goes on after its pages cover the list.
  lemma GuardedWalkStops<T>(ep: Endpoint, rows: seq<T>, size: nat, pages: seq<Page<T>>)
    requires Sound(ep.codec, TWO_63) && ep.guarded && |rows| < TWO_63 && size >= 1
    requires Walk(ep, rows, size, [], pages) && |pages| > 1
    ensures Times(|pages| - 1, size) < |rows|
  {
    WalkPrefix(ep, rows, size, [], pages);
    GuardedWalk(ep, rows, size, pages[..|pages| - 1]);
  }

  // All pages but the last also form a walk, and its token is not empty.
  lemma {:induction false} WalkPrefix<T>(ep: Endpoint, rows: seq<T>, size: nat, token: Bytes, pages: seq<Page<T>>)
    requires |pages| > 1 && Walk(ep, rows, size, token, pages)
    ensures Walk(ep, rows, size, token, pages[..|pages| - 1])
    ensures pages[|pages| - 2].nextToken != []
    decreases |pages|
  {
    var front := pages[..|pages| - 1];
    if |pages| > 2 {
      WalkPrefix(ep, rows, size, pages[0].nextToken, pages[1..]);
      assert front[1..] == pages[1..][..|pages[1..]| - 1];
    } else {
      assert front[1..] == [];
    }
  }

  // Unguarded endpoints: the pages still add up to the list, but for a non-empty list no
  // token is ever empty, and past the end every page is empty and repeats its token.
  lemma {:induction false} UnguardedWalk<T>(ep: Endpoint, rows: seq<T>, size: nat, pages: seq<Page<T>>)
    requires Sound(ep.codec, TWO_63) && !ep.guarded && |rows| < TWO_63 && size >= 1
    requires Walk(ep, rows, size, [], pages) && pages != []
    ensures Concat(pages) == rows[..Min(Times(|pages|, size), |rows|)]
    ensures pages[|pages| - 1].nextToken == [] <==> rows == []
    ensures Times(|pages|, size) >= |rows| ==>
              var token := pages[|pages| - 1].nextToken;
              Concat(pages) == rows && ListPage(ep, rows, token, size) == Some(Page([], token))
  {
    WalkReaches(ep, rows, size, pages);
    if Times(|pages|, size) >= |rows| {
      PastTheEnd(ep, rows, size);
    }
  }

  // Past the end of a list an unguarded page is empty and repeats its token.
  lemma {:induction false} PastTheEnd<T>(ep: Endpoint, rows: seq<T>, size: nat)
    requires Sound(ep.codec, TWO_63) && !ep.guarded && |rows| < TWO_63
    ensures ListPage(ep, rows, TokenAt(ep, |rows|, |rows|), size) == Some(Page([], TokenAt(ep, |rows|, |rows|)))
  {
  }

  // --- ListMessages: look-ahead over sequences, with rows hidden after the read ---

  // `hidden` marks deleted or shadowed messages the service drops after the LIMIT.
  datatype Message = Message(sequence: nat, hidden: bool)

  predicate ValidMessages(rows: seq<Message>) {
    && (forall i :: 0 <= i < |rows| ==> 0 < rows[i].sequence < TWO_64)
    && (forall i, j :: 0 <= i < j < |rows| ==> rows[i].sequence < rows[j].sequence)
  }

  // Rows with a larger sequence than `from`.
  function Tail(rows: seq<Message>, from: nat): (r: seq<Message>)
    ensures |r| <= |rows|
  {
    if rows == [] || rows[0].sequence > from then rows else Tail(rows[1..], from)
  }

  function Visible(rows: seq<Message>): (r: seq<Message>)
    ensures |r| <= |rows|
  {
    if rows == [] then [] else
    if rows[0].hidden then Visible(rows[1..]) else [rows[0]] + Visible(rows[1..])
  }

  // One response: limit+1 rows are read, hidden ones dropped, and only a surplus makes a token.
  function MessagePage(codec: Codec, rows: seq<Message>, token: Bytes, limit: nat): Option<Page<Message>>
    requires limit >= 1
  {
    match codec.decode(token)
    case Err => None
    case Ok(from) =>
      var tail := Tail(rows, from);
      var messages := Visible(tail[..Min(limit + 1, |tail|)]);
      if |messages| > limit then Some(Page(messages[..limit], codec.mint(messages[limit - 1].sequence)))
      else Some(Page(messages, []))
  }

  // The client's walk from a token on, page by page.
  ghost predicate MessageWalk(codec: Codec, rows: seq<Message>, limit: nat, token: Bytes, pages: seq<Page<Message>>)
    requires limit >= 1
    decreases |pages|
  {
    pages != [] ==>
      && MessagePage(codec, rows, token, limit) == Some(pages[0])
      && (|pages| > 1 ==> pages[0].nextToken != [])
      && MessageWalk(codec, rows, limit, pages[0].nextToken, pages[1..])
  }

  // What a finished walk returns from row i on.
  function Returned(rows: seq<Message>, limit: nat): seq<Message>
    requires limit >= 1
  {
    if |rows| > limit && FirstHidden(rows) > limit then rows[..limit] + Returned(rows[limit..], limit)
    else Visible(rows[..Min(limit + 1, |rows|)])
  }

  function FirstHidden(rows: seq<Message>): (h: nat)
    ensures h <= |rows|
  {
    if rows == [] || rows[0].hidden then 0 else 1 + FirstHidden(rows[1..])
  }

  lemma {:induction false} FirstHiddenIsFirst(rows: seq<Message>, k: nat)
    requires k <= FirstHidden(rows) && k < |rows|
    ensures rows[k].hidden <==> k == FirstHidden(rows)
  {
    if k > 0 {
      FirstHiddenIsFirst(rows[1..], k - 1);
    }
  }

  lemma {:induction false} VisibleAll(rows: seq<Message>)
    requires FirstHidden(rows) == |rows|
    ensures Visible(rows) == rows
  {
    if rows != [] {
      VisibleAll(rows[1..]);
    }
  }

  lemma {:induction false} VisibleShorter(rows: seq<Message>)
    ensures |Visible(rows)| == |rows| <==> FirstHidden(rows) == |rows|
  {
    if rows != [] {
      VisibleShorter(rows[1..]);
    }
  }

  lemma {:induction false} VisibleConcat(a: seq<Message>, b: seq<Message>)
    ensures Visible(a + b) == Visible(a) + Visible(b)
  {
    if a == [] {
      assert a + b == b;
    } else {
      assert (a + b)[1..] == a[1..] + b;
      VisibleConcat(a[1..], b);
    }
  }

  lemma {:induction false} FirstHiddenTake(rows: seq<Message>, k: nat)
    requires k <= |rows|
    ensures FirstHidden(rows[..k]) == Min(FirstHidden(rows), k)
  {
    if k > 0 && !rows[0].hidden {
      assert rows[..k][1..] == rows[1..][..k - 1];
      FirstHiddenTake(rows[1..], k - 1);
    }
  }

  lemma {:induction false} FirstHiddenDrop(rows: seq<Message>, k: nat)
    requires k <= FirstHidden(rows)
    ensures FirstHidden(rows[k..]) == FirstHidden(rows) - k
  {
    if k > 0 {
      assert rows[1..][k - 1..] == rows[k..];
      FirstHiddenDrop(rows[1..], k - 1);
    }
  }

  lemma {:induction false} TailAt(rows: seq<Message>, i: nat)
    requires ValidMessages(rows) && 0 < i <= |rows|
    ensures Tail(rows, rows[i - 1].sequence) == rows[i..]
  {
    if i > 1 {
      TailAt(rows[1..], i - 1);
    } else if |rows| > 1 {
      assert rows[1..][0] == rows[1];
    }
  }

  // A page at row i: with limit+1 visible rows ahead it is full and its token leads to row
  // i+limit; otherwise it holds the visible rows of the window and ends the walk.
  lemma PageAt(codec: Codec, rows: seq<Message>, token: Bytes, limit: nat, i: nat)
    requires Sound(codec, TWO_64) && ValidMessages(rows) && limit >= 1 && i <= |rows|
    requires codec.decode(token).Ok? && Tail(rows, codec.decode(token).value) == rows[i..]
    ensures var tail := rows[i..];
            if |tail| > limit && FirstHidden(tail) > limit then
              MessagePage(codec, rows, token, limit)
              == Some(Page(tail[..limit], codec.mint(rows[i + limit - 1].sequence)))
            else MessagePage(codec, rows, token, limit) == Some(Page(Visible(tail[..Min(limit + 1, |tail|)]), []))
  {
    var tail := rows[i..];
    var window := tail[..Min(limit + 1, |tail|)];
    FirstHiddenTake(tail, |window|);
    VisibleShorter(window);
    if |tail| > limit && FirstHidden(tail) > limit {
      VisibleAll(window);
      assert window[..limit] == tail[..limit];
    }
  }

  // A walk that ended returned exactly Returned.
  lemma {:induction false} FinishedWalk(codec: Codec, rows: seq<Message>, limit: nat, token: Bytes,
                                        pages: seq<Page<Message>>, i: nat)
    requires Sound(codec, TWO_64) && ValidMessages(rows) && limit >= 1 && i <= |rows|
    requires codec.decode(token).Ok? && Tail(rows, codec.decode(token).value) == rows[i..]
    requires MessageWalk(codec, rows, limit, token, pages)
    requires pages != [] && pages[|pages| - 1].nextToken == []
    ensures Concat(pages) == Returned(rows[i..], limit)
    decreases |pages|
  {
    PageAt(codec, rows, token, limit, i);
    if |rows| - i > limit && FirstHidden(rows[i..]) > limit {
      FullPage(codec, rows, limit, token, pages, i);
      FinishedWalk(codec, rows, limit, pages[0].nextToken, pages[1..], i + limit);
    } else {
      assert Concat(pages[1..]) == [];
    }
  }

  // A full page is followed by a walk from the row its token leads to.
  lemma FullPage(codec: Codec, rows: seq<Message>, limit: nat, token: Bytes, pages: seq<Page<Message>>, i: nat)
    requires Sound(codec, TWO_64) && ValidMessages(rows) && limit >= 1 && i + limit <= |rows|
    requires MessageWalk(codec, rows, limit, token, pages)
    requires pages != [] && pages[|pages| - 1].nextToken == []
    requires MessagePage(codec, rows, token, limit)
             == Some(Page(rows[i..][..limit], codec.mint(rows[i + limit - 1].sequence)))
    ensures |pages| > 1 && pages[1..][|pages| - 2].nextToken == []
    ensures MessageWalk(codec, rows, limit, pages[0].nextToken, pages[1..])
    ensures codec.decode(pages[0].nextToken).Ok?
            && Tail(rows, codec.decode(pages[0].nextToken).value) == rows[i + limit..]
    ensures pages[0].rows == rows[i..][..limit] && rows[i..][limit..] == rows[i + limit..]
  {
    TokenLeadsOn(codec, rows, i + limit);
  }

  // The token for row i is not empty and leads to the rows after it.
  lemma TokenLeadsOn(codec: Codec, rows: seq<Message>, i: nat)
    requires Sound(codec, TWO_64) && ValidMessages(rows) && 0 < i <= |rows|
    ensures var token := codec.mint(rows[i - 1].sequence);
            token != [] && codec.decode(token).Ok? && Tail(rows, codec.decode(token).value) == rows[i..]
  {
    TailAt(rows, i);
  }

  // The row where the first page whose window meets row h starts.
  function PageStart(h: nat, limit: nat): (s: nat)
    requires limit >= 1
    ensures s <= h <= s + limit
  {
    if h <= limit then 0 else limit + PageStart(h - limit, limit)
  }

  predicate AllHiddenFrom(rows: seq<Message>, k: nat) {
    forall i :: k <= i < |rows| ==> rows[i].hidden
  }

  lemma {:induction false} NoneVisible(rows: seq<Message>)
    ensures Visible(rows) == [] <==> AllHiddenFrom(rows, 0)
  {
    if rows != [] {
      NoneVisible(rows[1..]);
      assert AllHiddenFrom(rows, 0) <==> rows[0].hidden && AllHiddenFrom(rows[1..], 0) by {
        assert forall i :: 0 <= i < |rows[1..]| ==> rows[1..][i] == rows[i + 1];
        if rows[0].hidden && AllHiddenFrom(rows[1..], 0) {
          forall i | 0 <= i < |rows|
            ensures rows[i].hidden
          {
            if i > 0 {
              assert rows[i] == rows[1..][i - 1];
            }
          }
        }
      }
    }
  }

  // The rows from index k on.
  function Beyond(rows: seq<Message>, k: nat): seq<Message> {
    if k <= |rows| then rows[k..] else []
  }

  lemma BeyondDrop(rows: seq<Message>, a: nat, b: nat, k: nat)
    requires a <= |rows| && k == a + b
    ensures Beyond(rows[a..], b) == Beyond(rows, k)
  {
  }

  lemma HiddenBeyond(rows: seq<Message>, k: nat)
    ensures Visible(Beyond(rows, k)) == [] <==> AllHiddenFrom(rows, k)
  {
    NoneVisible(Beyond(rows, k));
    if k <= |rows| && AllHiddenFrom(rows[k..], 0) {
      forall i | k <= i < |rows|
        ensures rows[i].hidden
      {
        assert rows[k..][i - k] == rows[i];
      }
    }
  }

  // The page that meets a hidden row ends the walk: it is complete when nothing visible follows.
  lemma LastPageExact(rows: seq<Message>, limit: nat)
    requires limit >= 1 && limit < |rows|
    ensures Visible(rows[..limit + 1]) == Visible(rows) <==> Visible(Beyond(rows, limit + 1)) == []
  {
    assert rows == rows[..limit + 1] + rows[limit + 1..];
    VisibleConcat(rows[..limit + 1], rows[limit + 1..]);
  }

  // A full page in front changes neither side.
  lemma FullPageExact(rows: seq<Message>, limit: nat)
    requires limit >= 1 && FirstHidden(rows) > limit
    ensures Visible(rows) == rows[..limit] + Visible(rows[limit..])
    ensures FirstHidden(rows[limit..]) == FirstHidden(rows) - limit
  {
    var front, rest := rows[..limit], rows[limit..];
    assert rows == front + rest;
    VisibleConcat(front, rest);
    FirstHiddenTake(rows, limit);
    VisibleAll(front);
    FirstHiddenDrop(rows, limit);
  }

  lemma SamePrefix<T>(a: seq<T>, b: seq<T>, c: seq<T>)
    ensures a + b == a + c <==> b == c
  {
    if a + b == a + c {
      assert (a + b)[|a|..] == b && (a + c)[|a|..] == c;
    }
  }

  // Where the walk must have stopped for everything after it to be hidden.
  function StopsAt(rows: seq<Message>, limit: nat): nat
    requires limit >= 1
  {
    PageStart(FirstHidden(rows), limit) + limit + 1
  }

  lemma {:induction false} StopsLater(rows: seq<Message>, limit: nat)
    requires limit >= 1 && FirstHidden(rows) > limit
    ensures StopsAt(rows, limit) == limit + StopsAt(rows[limit..], limit)
  {
    FirstHiddenDrop(rows, limit);
    PageStartLater(FirstHidden(rows), limit);
  }

  lemma {:induction false} PageStartLater(k: nat, limit: nat)
    requires limit >= 1 && k > limit
    ensures PageStart(k, limit) == limit + PageStart(k - limit, limit)
  {
  }

  lemma ReturnedFull(rows: seq<Message>, limit: nat)
    requires limit >= 1 && |rows| > limit && FirstHidden(rows) > limit
    requires Returned(rows[limit..], limit) == Visible(rows[limit..])
             <==> Visible(Beyond(rows[limit..], StopsAt(rows[limit..], limit))) == []
    ensures Returned(rows, limit) == Visible(rows) <==> Visible(Beyond(rows, StopsAt(rows, limit))) == []
  {
    var front, rest := rows[..limit], rows[limit..];
    assert Visible(rows) == front + Visible(rest) by {
      FullPageExact(rows, limit);
    }
    StopsLater(rows, limit);
    BeyondDrop(rows, limit, StopsAt(rest, limit), StopsAt(rows, limit));
    SamePrefix(front, Returned(rest, limit), Visible(rest));
  }

  lemma ReturnedLast(rows: seq<Message>, limit: nat)
    requires limit >= 1 && (|rows| <= limit || FirstHidden(rows) <= limit)
    ensures Returned(rows, limit) == Visible(rows) <==> Visible(Beyond(rows, StopsAt(rows, limit))) == []
  {
    if |rows| <= limit {
      assert rows[..|rows|] == rows;
    } else {
      LastPageExact(rows, limit);
    }
  }

  lemma {:induction false} ReturnedExact(rows: seq<Message>, limit: nat)
    requires limit >= 1
    ensures Returned(rows, limit) == Visible(rows) <==> Visible(Beyond(rows, StopsAt(rows, limit))) == []
    decreases |rows|
  {
    if |rows| > limit && FirstHidden(rows) > limit {
      ReturnedExact(rows[limit..], limit);
      ReturnedFull(rows, limit);
    } else {
      ReturnedLast(rows, limit);
    }
  }

  // The look-ahead walk returns every visible message exactly when nothing visible lies
  // beyond the window of the first page that meets a hidden row.
  lemma LookAheadExact(rows: seq<Message>, limit: nat)
    requires limit >= 1
    ensures Returned(rows, limit) == Visible(rows)
            <==> AllHiddenFrom(rows, StopsAt(rows, limit))
  {
    ReturnedExact(rows, limit);
    HiddenBeyond(rows, StopsAt(rows, limit));
  }

  // With no hidden rows the walk of a message list returns all of it.
  lemma LookAheadWithoutHidden(codec: Codec, rows: seq<Message>, limit: nat, pages: seq<Page<Message>>)
    requires Sound(codec, TWO_64) && ValidMessages(rows) && limit >= 1
    requires MessageWalk(codec, rows, limit, [], pages) && pages != [] && pages[|pages| - 1].nextToken == []
    requires FirstHidden(rows) == |rows|
    ensures Concat(pages) == rows
  {
    assert rows[0..] == rows && Tail(rows, 0) == rows;
    FinishedWalk(codec, rows, limit, [], pages, 0);
    LookAheadExact(rows, limit);
    VisibleAll(rows);
  }

  // A finished walk of any message list is complete exactly under that condition.
  lemma LookAheadWalk(codec: Codec, rows: seq<Message>, limit: nat, pages: seq<Page<Message>>)
    requires Sound(codec, TWO_64) && ValidMessages(rows) && limit >= 1
    requires MessageWalk(codec, rows, limit, [], pages) && pages != [] && pages[|pages| - 1].nextToken == []
    ensures Concat(pages) == Visible(rows)
            <==> AllHiddenFrom(rows, StopsAt(rows, limit))
  {
    assert rows[0..] == rows && Tail(rows, 0) == rows;
    FinishedWalk(codec, rows, limit, [], pages, 0);
    LookAheadExact(rows, limit);
  }

  // Each page but the last uses up `limit` rows, so the walk is finite.
  lemma {:induction false} LookAheadTerminates(codec: Codec, rows: seq<Message>, limit: nat, token: Bytes,
                                               pages: seq<Page<Message>>, i: nat)
    requires Sound(codec, TWO_64) && ValidMessages(rows) && limit >= 1 && i <= |rows|
    requires codec.decode(token).Ok? && Tail(rows, codec.decode(token).value) == rows[i..]
    requires MessageWalk(codec, rows, limit, token, pages) && pages != []
    ensures Times(|pages| - 1, limit) <= |rows| - i
    decreases |pages|
  {
    PageAt(codec, rows, token, limit, i);
    if |pages| > 1 {
      TokenLeadsOn(codec, rows, i + limit);
      LookAheadTerminates(codec, rows, limit, pages[0].nextToken, pages[1..], i + limit);
    }
  }

  // A deleted message in the first window hides the message after it for good.
  lemma HiddenRowEndsWalk()
    ensures var rows := [Message(1, true), Message(2, false), Message(3, false)];
            !AllHiddenFrom(rows, StopsAt(rows, 1)) && Returned(rows, 1) == [Message(2, false)]
  {
    var rows := [Message(1, true), Message(2, false), Message(3, false)];
    assert rows[2] == Message(3, false);
    assert rows[..2] == [Message(1, true), Message(2, false)];
    assert Visible([Message(2, false)]) == [Message(2, false)];
    assert rows[..2][1..] == [Message(2, false)];
  }
}
