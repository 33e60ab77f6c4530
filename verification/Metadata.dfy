// Message metadata of copied bot messages: cloning, captions and inline keyboards.
// A nil map reads like an empty one and is modelled as the empty map.
module Keyboard {
  import opened Outcomes

  datatype Button = Button(text: string, callbackData: string, url: string)

  // strings.TrimSpace enters as a parameter with the one law it is used for, which keeps the
  // reasoning apart from strings; Metadata.GoTrim shows that TrimSpace obeys it.
  type Trim = string -> string

  ghost predicate Idempotent(trim: Trim) {
    forall s {:trigger trim(s)} :: trim(trim(s)) == trim(s)
  }

  type Row = seq<Button>
  type Markup = seq<Row>

  function TrimButton(trim: Trim, b: Button): Button {
    Button(trim(b.text), trim(b.callbackData), trim(b.url))
  }

  // A label, and exactly one of callback data and URL.
  predicate Usable(trim: Trim, b: Button) {
    var t := TrimButton(trim, b);
    t.text != "" && ((t.callbackData == "") != (t.url == ""))
  }

  function TrimRow(trim: Trim, row: Row): Row {
    if row == [] then [] else TrimRow(trim, row[..|row| - 1]) + [TrimButton(trim, row[|row| - 1])]
  }

  // The rows that survive: trimmed, empty ones dropped.
  function TrimRows(trim: Trim, rows: Markup): Markup {
    if rows == [] then [] else
    var front, last := TrimRows(trim, rows[..|rows| - 1]), rows[|rows| - 1];
    if last == [] then front else front + [TrimRow(trim, last)]
  }

  predicate UsableRow(trim: Trim, row: Row) {
    forall i :: 0 <= i < |row| ==> Usable(trim, row[i])
  }

  predicate UsableRows(trim: Trim, m: Markup) {
    forall i :: 0 <= i < |m| ==> UsableRow(trim, m[i])
  }

  predicate Accepted(trim: Trim, m: Markup) {
    && UsableRows(trim, m)
    && (exists i :: 0 <= i < |m| && m[i] != [])
  }

  function Normalized(trim: Trim, m: Markup): Result<Markup> {
    if Accepted(trim, m) then Ok(TrimRows(trim, m)) else Err
  }

  // InlineKeyboardMarkup.normalize.
  method Normalize(trim: Trim, m: Markup) returns (result: Result<Markup>)
    ensures result == Normalized(trim, m)
  {
    var rows: Markup := [];
    for i := 0 to |m|
      invariant rows == TrimRows(trim, m[..i])
      invariant UsableRows(trim, m[..i])
    {
      assert m[..i + 1][..i] == m[..i];
      if m[i] != [] {
        var next := NormalizeRow(trim, m[i]);
        if next.Err? {
          BadRowRefused(trim, m, i);
          return Err;
        }
        rows := rows + [next.value];
      }
    }
    assert m[..|m|] == m;
    UsableRowsNormalize(trim, m);
    return if rows == [] then Err else Ok(rows);
  }

  lemma {:induction false} NoRowsIff(trim: Trim, m: Markup)
    ensures TrimRows(trim, m) == [] <==> forall i :: 0 <= i < |m| ==> m[i] == []
    decreases |m|
  {
    if m != [] {
      var n := |m| - 1;
      NoRowsIff(trim, m[..n]);
      assert forall i :: 0 <= i < n ==> m[..n][i] == m[i];
    }
  }

  lemma {:induction false} BadRowRefused(trim: Trim, m: Markup, i: nat)
    requires i < |m| && !UsableRow(trim, m[i])
    ensures Normalized(trim, m) == Err
  {
  }

  lemma {:induction false} UsableRowsNormalize(trim: Trim, m: Markup)
    requires UsableRows(trim, m)
    ensures Normalized(trim, m) == if TrimRows(trim, m) == [] then Err else Ok(TrimRows(trim, m))
  {
    NoRowsIff(trim, m);
  }

  method NormalizeRow(trim: Trim, row: Row) returns (result: Result<Row>)
    ensures result == if UsableRow(trim, row) then Ok(TrimRow(trim, row)) else Err
  {
    var next: Row := [];
    for i := 0 to |row|
      invariant next == TrimRow(trim, row[..i])
      invariant forall k :: 0 <= k < i ==> Usable(trim, row[k])
    {
      assert row[..i + 1][..i] == row[..i];
      if !Usable(trim, row[i]) {
        return Err;
      }
      next := next + [TrimButton(trim, row[i])];
    }
    assert row[..|row|] == row;
    return Ok(next);
  }

  lemma TrimButtonTwice(trim: Trim, b: Button)
    requires Idempotent(trim)
    requires Usable(trim, b)
    ensures TrimButton(trim, TrimButton(trim, b)) == TrimButton(trim, b) && Usable(trim, TrimButton(trim, b))
  {
  }

  lemma {:induction false} TrimRowTwice(trim: Trim, row: Row)
    requires Idempotent(trim)
    requires UsableRow(trim, row)
    ensures |TrimRow(trim, row)| == |row| && UsableRow(trim, TrimRow(trim, row)) && TrimRow(trim, TrimRow(trim, row)) == TrimRow(trim, row)
    decreases |row|
  {
    if row != [] {
      var front, last := row[..|row| - 1], row[|row| - 1];
      TrimRowTwice(trim, front);
      TrimButtonTwice(trim, last);
      assert TrimRow(trim, row)[..|front|] == TrimRow(trim, front);
    }
  }

  // Rows that trimming leaves alone.
  predicate Settled(trim: Trim, m: Markup) {
    forall i :: 0 <= i < |m| ==> m[i] != [] && UsableRow(trim, m[i]) && TrimRow(trim, m[i]) == m[i]
  }

  lemma {:induction false} TrimRowsSettled(trim: Trim, m: Markup)
    requires Idempotent(trim)
    requires UsableRows(trim, m)
    ensures Settled(trim, TrimRows(trim, m))
    decreases |m|
  {
    if m != [] {
      var front, last := m[..|m| - 1], m[|m| - 1];
      TrimRowsSettled(trim, front);
      if last != [] {
        TrimRowTwice(trim, last);
      }
    }
  }

  lemma {:induction false} SettledFixed(trim: Trim, m: Markup)
    requires Settled(trim, m)
    ensures TrimRows(trim, m) == m
    decreases |m|
  {
    if m != [] {
      var front := m[..|m| - 1];
      SettledFixed(trim, front);
      assert m == front + [m[|m| - 1]];
    }
  }

  // Normalising twice is normalising once.
  lemma NormalizeIdempotent(trim: Trim, m: Markup)
    requires Idempotent(trim)
    requires Normalized(trim, m).Ok?
    ensures Normalized(trim, Normalized(trim, m).value) == Normalized(trim, m)
  {
    var n := TrimRows(trim, m);
    TrimRowsSettled(trim, m);
    SettledFixed(trim, n);
    var i :| 0 <= i < |m| && m[i] != [];
    NoRowsIff(trim, m);
    assert n[0] != [];
  }

  // --- the normal form, from the texts of the buttons ---

  // Every button has a label and one of callback data and URL, and there is a button.
  ghost predicate Presentable(trim: Trim, m: Markup) {
    && (forall i, j :: 0 <= i < |m| && 0 <= j < |m[i]| ==>
          && trim(m[i][j].text) != ""
          && (trim(m[i][j].callbackData) != "" <==> trim(m[i][j].url) == ""))
    && (exists i :: 0 <= i < |m| && |m[i]| > 0)
  }

  lemma {:induction false} NormalizedIff(trim: Trim, m: Markup)
    ensures Normalized(trim, m).Ok? <==> Presentable(trim, m)
  {
  }

  // How many of these rows hold a button.
  function Filled(rows: Markup): nat {
    if rows == [] then 0 else Filled(rows[..|rows| - 1]) + if rows[|rows| - 1] == [] then 0 else 1
  }

  lemma {:induction false} TrimRowAt(trim: Trim, row: Row, j: nat)
    requires j < |row|
    ensures |TrimRow(trim, row)| == |row|
    ensures TrimRow(trim, row)[j] == Button(trim(row[j].text), trim(row[j].callbackData), trim(row[j].url))
    decreases |row|
  {
    var n := |row| - 1;
    if j < n {
      TrimRowAt(trim, row[..n], j);
    } else if n > 0 {
      TrimRowAt(trim, row[..n], 0);
    }
  }

  lemma {:induction false} TrimRowsLength(trim: Trim, m: Markup)
    ensures |TrimRows(trim, m)| == Filled(m)
    decreases |m|
  {
    if m != [] {
      TrimRowsLength(trim, m[..|m| - 1]);
    }
  }

  // Normalising keeps the rows that hold a button, in order, and every button in its place with
  // its three texts trimmed.
  lemma {:induction false} NormalizedAt(trim: Trim, m: Markup, i: nat, j: nat)
    requires i < |m| && j < |m[i]|
    ensures var rows, k := TrimRows(trim, m), Filled(m[..i]);
            && |rows| == Filled(m) && k < |rows| && |rows[k]| == |m[i]|
            && rows[k][j] == Button(trim(m[i][j].text), trim(m[i][j].callbackData), trim(m[i][j].url))
    decreases |m|
  {
    var n := |m| - 1;
    TrimRowsLength(trim, m);
    TrimRowsLength(trim, m[..n]);
    if i < n {
      NormalizedAt(trim, m[..n], i, j);
      assert m[..n][..i] == m[..i];
    } else {
      TrimRowAt(trim, m[n], j);
    }
  }

  ghost predicate HasCallback(m: Markup, data: string) {
    exists i, j :: 0 <= i < |m| && 0 <= j < |m[i]| && m[i][j].callbackData == data
  }

  // callbackAllowed.
  method CallbackAllowed(trim: Trim, markup: Option<Markup>, rawData: string) returns (allowed: bool)
    ensures allowed <==> markup.Some? && trim(rawData) != "" && HasCallback(markup.value, trim(rawData))
  {
    var data: string := trim(rawData);
    if markup.None? || data == "" {
      return false;
    }
    var m: Markup := markup.value;
    for i := 0 to |m|
      invariant forall k, j :: 0 <= k < i && 0 <= j < |m[k]| ==> m[k][j].callbackData != data
    {
      for j := 0 to |m[i]|
        invariant forall k :: 0 <= k < j ==> m[i][k].callbackData != data
      {
        if m[i][j].callbackData == data {
          return true;
        }
      }
    }
    return false;
  }
}

module Metadata {
  import opened Outcomes
  import opened Text
  import opened Keyboard

  type Meta = map<string, string>

  // strings.TrimSpace and encoding/json on keyboards enter as parameters with their laws,
  // which keeps the map reasoning apart from strings; GoTrim shows that TrimSpace has them.
  datatype Lib = Lib(trim: string -> string, encode: Markup -> string, decode: string -> Option<Markup>)

  ghost predicate Trims(lib: Lib) {
    && Idempotent(lib.trim)
    && lib.trim(MARKUP_KEY) == MARKUP_KEY
    && lib.trim(CAPTION_KEY) == CAPTION_KEY
    && lib.trim("") == ""
  }

  ghost predicate Faithful(lib: Lib) {
    forall m {:trigger lib.encode(m)} ::
      lib.decode(lib.encode(m)) == Some(m) && lib.encode(m) != "" && lib.trim(lib.encode(m)) == lib.encode(m)
  }

  lemma GoTrim(lib: Lib)
    requires lib.trim == TrimSpace
    ensures Trims(lib)
  {
    forall s
      ensures TrimSpace(TrimSpace(s)) == TrimSpace(s)
    {
      TrimSpaceIdempotent(s);
    }
    TrimmedIffFixed(MARKUP_KEY);
    TrimmedIffFixed(CAPTION_KEY);
  }

  const MARKUP_KEY := "bot.reply_markup"
  const CAPTION_KEY := "bot.caption"

  function Read(m: Meta, key: string): string {
    if key in m then m[key] else ""
  }

  // --- cloning ---

  // Entries that survive trimming.
  predicate Kept(lib: Lib, m: Meta, key: string) {
    key in m && lib.trim(key) != "" && lib.trim(m[key]) != ""
  }

  // What a clone may be: each surviving key, with the value of some entry that trims to it.
  // Go visits a map in any order, so when two keys trim alike either value may win.
  ghost predicate IsClone(lib: Lib, m: Meta, c: Meta) {
    && (forall k {:trigger Kept(lib, m, k)} :: Kept(lib, m, k) ==> lib.trim(k) in c)
    && (forall k :: k in c ==> exists k0 {:trigger Kept(lib, m, k0)} ::
                                 Kept(lib, m, k0) && lib.trim(k0) == k && lib.trim(m[k0]) == c[k])
  }

  // cloneMetadata.
  method CloneMetadata(lib: Lib, m: Meta) returns (c: Meta)
    ensures IsClone(lib, m, c)
  {
    c := map[];
    var todo := m.Keys;
    while todo != {}
      invariant todo <= m.Keys
      invariant forall k {:trigger Kept(lib, m, k)} :: Kept(lib, m, k) && k !in todo ==> lib.trim(k) in c
      invariant forall k :: k in c ==> exists k0 {:trigger Kept(lib, m, k0)} ::
                                         Kept(lib, m, k0) && lib.trim(k0) == k && lib.trim(m[k0]) == c[k]
    {
      var k :| k in todo;
      todo := todo - {k};
      var key, value := lib.trim(k), lib.trim(m[k]);
      if key != "" && value != "" {
        assert Kept(lib, m, k);
        c := c[key := value];
      }
    }
  }

  // Keys that trim alike carry values that trim alike.
  ghost predicate Unambiguous(lib: Lib, m: Meta) {
    forall j, k {:trigger Kept(lib, m, j), Kept(lib, m, k)} ::
      Kept(lib, m, j) && Kept(lib, m, k) && lib.trim(j) == lib.trim(k) ==> lib.trim(m[j]) == lib.trim(m[k])
  }

  lemma CloneUnique(lib: Lib, m: Meta, c: Meta, d: Meta)
    requires Unambiguous(lib, m) && IsClone(lib, m, c) && IsClone(lib, m, d)
    ensures c == d
  {
    forall k | k in c
      ensures k in d && c[k] == d[k]
    {
      CloneEntry(lib, m, c, d, k);
    }
    forall k | k in d
      ensures k in c
    {
      CloneEntry(lib, m, d, c, k);
    }
  }

  lemma CloneEntry(lib: Lib, m: Meta, c: Meta, d: Meta, k: string)
    requires Unambiguous(lib, m) && IsClone(lib, m, c) && IsClone(lib, m, d) && k in c
    ensures k in d && c[k] == d[k]
  {
    var j :| Kept(lib, m, j) && lib.trim(j) == k && lib.trim(m[j]) == c[k];
    var i :| Kept(lib, m, i) && lib.trim(i) == k && lib.trim(m[i]) == d[k];
  }

  // And when they do not, the order of the visits shows: either value may end up in the clone.
  lemma CloneAmbiguous(lib: Lib, m: Meta, c: Meta)
    requires !Unambiguous(lib, m) && IsClone(lib, m, c)
    ensures exists a, b :: IsClone(lib, m, a) && IsClone(lib, m, b) && a != b
  {
    var j, k :| Kept(lib, m, j) && Kept(lib, m, k) && lib.trim(j) == lib.trim(k) && lib.trim(m[j]) != lib.trim(m[k]);
    CloneOverwritten(lib, m, c, j);
    CloneOverwritten(lib, m, c, k);
    var a, b := c[lib.trim(j) := lib.trim(m[j])], c[lib.trim(k) := lib.trim(m[k])];
    assert a[lib.trim(j)] != b[lib.trim(j)];
  }

  lemma CloneOverwritten(lib: Lib, m: Meta, c: Meta, j: string)
    requires IsClone(lib, m, c) && Kept(lib, m, j)
    ensures IsClone(lib, m, c[lib.trim(j) := lib.trim(m[j])])
  {
  }

  // Trimmed keys, as the conversation layer stores them, are never ambiguous.
  ghost predicate TrimmedKeys(lib: Lib, m: Meta) {
    forall k {:trigger k in m} :: k in m ==> lib.trim(k) == k
  }

  lemma TrimmedIsUnambiguous(lib: Lib, m: Meta)
    requires TrimmedKeys(lib, m)
    ensures Unambiguous(lib, m)
  {
  }

  // The clone under trimmed keys.
  function Clean(lib: Lib, m: Meta): Meta {
    map k | k in m && Kept(lib, m, k) :: lib.trim(m[k])
  }

  lemma CloneIsClean(lib: Lib, m: Meta, c: Meta)
    requires TrimmedKeys(lib, m) && IsClone(lib, m, c)
    ensures c == Clean(lib, m)
  {
    var d := Clean(lib, m);
    forall k | k in d
      ensures exists k0 {:trigger Kept(lib, m, k0)} :: Kept(lib, m, k0) && lib.trim(k0) == k && lib.trim(m[k0]) == d[k]
    {
      assert Kept(lib, m, k) && lib.trim(k) == k;
    }
    TrimmedIsUnambiguous(lib, m);
    CloneUnique(lib, m, c, d);
  }

  // Only trimmed keys and values, none blank: what every clone is, and what cloning keeps.
  ghost predicate IsClean(lib: Lib, c: Meta) {
    forall k {:trigger k in c} :: k in c ==> k != "" && c[k] != "" && lib.trim(k) == k && lib.trim(c[k]) == c[k]
  }

  lemma CloneClean(lib: Lib, m: Meta, c: Meta)
    requires Trims(lib) && IsClone(lib, m, c)
    ensures IsClean(lib, c)
  {
    forall k | k in c
      ensures k != "" && c[k] != "" && lib.trim(k) == k && lib.trim(c[k]) == c[k]
    {
      var k0 :| Kept(lib, m, k0) && lib.trim(k0) == k && lib.trim(m[k0]) == c[k];
      assert lib.trim(lib.trim(m[k0])) == lib.trim(m[k0]);
    }
  }

  lemma CloneFixesClean(lib: Lib, c: Meta, d: Meta)
    requires IsClean(lib, c) && IsClone(lib, c, d)
    ensures d == c
  {
    forall k | k in c
      ensures k in d && Kept(lib, c, k)
    {
      assert Kept(lib, c, k);
    }
    forall k | k in d
      ensures k in c && d[k] == c[k]
    {
      var k0 :| Kept(lib, c, k0) && lib.trim(k0) == k && lib.trim(c[k0]) == d[k];
    }
  }

  // --- captions and markup ---

  function PutCaption(c: Meta, caption: string): Meta {
    if caption == "" then c - {CAPTION_KEY} else c[CAPTION_KEY := caption]
  }

  function PutMarkup(lib: Lib, c: Meta, markup: Option<Markup>): Meta {
    if markup.None? then c else c[MARKUP_KEY := lib.encode(markup.value)]
  }

  // withoutMarkup.
  method WithoutMarkup(lib: Lib, m: Meta) returns (r: Meta)
    ensures exists c :: IsClone(lib, m, c) && r == c - {MARKUP_KEY}
  {
    var c := CloneMetadata(lib, m);
    r := c - {MARKUP_KEY};
  }

  // withCaption.
  method WithCaption(lib: Lib, m: Meta, rawCaption: string) returns (r: Meta)
    ensures exists c :: IsClone(lib, m, c) && r == PutCaption(c, lib.trim(rawCaption))
  {
    var c := CloneMetadata(lib, m);
    var caption := lib.trim(rawCaption);
    if caption == "" {
      r := c - {CAPTION_KEY};
    } else {
      r := c[CAPTION_KEY := caption];
    }
  }

  // The keyboard as it is sent: none, the normalised one, or an error.
  function Checked(lib: Lib, markup: Option<Markup>): Result<Option<Markup>> {
    match markup
    case None => Ok(None)
    case Some(m) => match Normalized(lib.trim, m) case Err => Err case Ok(n) => Ok(Some(n))
  }

  // markupMetadata.
  method MarkupMetadata(lib: Lib, m: Meta, markup: Option<Markup>) returns (r: Result<Meta>)
    ensures r.Err? <==> Checked(lib, markup).Err?
    ensures r.Ok? ==> exists c :: IsClone(lib, m, c) && r.value == PutMarkup(lib, c, Checked(lib, markup).value)
  {
    var checked: Option<Markup> := None;
    if markup.Some? {
      var n := Normalize(lib.trim, markup.value);
      if n.Err? {
        return Err;
      }
      checked := Some(n.value);
    }
    var c := CloneMetadata(lib, m);
    r := Ok(PutMarkup(lib, c, checked));
  }

  // messageReplyMarkup.
  function ReplyMarkup(lib: Lib, m: Meta): Option<Markup> {
    var raw := lib.trim(Read(m, MARKUP_KEY));
    if raw == "" then None else
    match lib.decode(raw)
    case None => None
    case Some(markup) => match Normalized(lib.trim, markup) case Err => None case Ok(n) => Some(n)
  }

  lemma DistinctKeys()
    ensures MARKUP_KEY != CAPTION_KEY && MARKUP_KEY != "" && CAPTION_KEY != ""
  {
    assert MARKUP_KEY[4] != CAPTION_KEY[4];
  }

  // A keyboard in normal form.
  ghost predicate IsNormal(lib: Lib, markup: Option<Markup>) {
    markup.Some? ==> Normalized(lib.trim, markup.value) == Ok(markup.value)
  }

  lemma CheckedIsNormal(lib: Lib, markup: Option<Markup>)
    requires Trims(lib) && Checked(lib, markup).Ok?
    ensures IsNormal(lib, Checked(lib, markup).value)
  {
    if markup.Some? {
      NormalizeIdempotent(lib.trim, markup.value);
    }
  }

  // Reading markup back gives the normalised keyboard that was written.
  lemma MarkupReadsBack(lib: Lib, m: Meta, markup: Markup)
    requires Trims(lib) && Faithful(lib) && Normalized(lib.trim, markup).Ok?
    requires Read(m, MARKUP_KEY) == lib.encode(Normalized(lib.trim, markup).value)
    ensures ReplyMarkup(lib, m) == Some(Normalized(lib.trim, markup).value)
  {
    var n := Normalized(lib.trim, markup).value;
    NormalizeIdempotent(lib.trim, markup);
    assert lib.trim(lib.encode(n)) == lib.encode(n);
  }

  // --- copyMessage ---

  datatype CopyRequest = CopyRequest(caption: string, markup: Option<Markup>, removeCaption: bool)

  // The caption rule: the requested one, else the source's unless it is to be removed.
  function CopiedCaption(lib: Lib, source: Meta, req: CopyRequest): string {
    var requested := lib.trim(req.caption);
    if requested == "" && !req.removeCaption then lib.trim(Read(source, CAPTION_KEY)) else requested
  }

  function CopiedMarkup(lib: Lib, source: Meta, req: CopyRequest): Option<Markup> {
    if req.markup.None? then ReplyMarkup(lib, source) else req.markup
  }

  // The metadata of the copy, given a clone of the source's.
  function Composed(lib: Lib, c: Meta, caption: string, markup: Option<Markup>): Meta {
    PutCaption(PutMarkup(lib, c - {MARKUP_KEY}, markup), caption)
  }

  // What a copy owes its source and its request: every other entry of a clone of the source; the
  // requested caption, else none if it is to be removed, else the source's; and the requested
  // keyboard, else the source's, in normal form.
  ghost predicate CopyOf(lib: Lib, source: Meta, req: CopyRequest, v: Meta) {
    && IsClean(lib, v)
    && (exists c :: IsClone(lib, source, c) && v - {CAPTION_KEY, MARKUP_KEY} == c - {CAPTION_KEY, MARKUP_KEY})
    && Read(v, "bot.caption") == (if lib.trim(req.caption) != "" then lib.trim(req.caption)
                                  else if req.removeCaption then ""
                                  else lib.trim(Read(source, "bot.caption")))
    && Ok(ReplyMarkup(lib, v)) == Checked(lib, if req.markup.Some? then req.markup else ReplyMarkup(lib, source))
  }

  lemma ComposedIsCopy(lib: Lib, source: Meta, req: CopyRequest, c: Meta)
    requires Trims(lib) && Faithful(lib) && IsClone(lib, source, c)
    requires Checked(lib, CopiedMarkup(lib, source, req)).Ok?
    ensures var v := Composed(lib, c, CopiedCaption(lib, source, req), Checked(lib, CopiedMarkup(lib, source, req)).value);
            && CopyOf(lib, source, req, v)
            && (TrimmedKeys(lib, source) ==>
                  v - {CAPTION_KEY, MARKUP_KEY} == Clean(lib, source) - {CAPTION_KEY, MARKUP_KEY})
  {
    var caption := CopiedCaption(lib, source, req);
    assert lib.trim(caption) == caption;
    CloneClean(lib, source, c);
    CheckedIsNormal(lib, CopiedMarkup(lib, source, req));
    CopyOutcome(lib, c, caption, Checked(lib, CopiedMarkup(lib, source, req)).value);
    if TrimmedKeys(lib, source) {
      CloneIsClean(lib, source, c);
    }
  }

  // copyMessage and copyDraft, as far as metadata goes.
  method CopyMetadata(lib: Lib, source: Meta, req: CopyRequest) returns (r: Result<Meta>)
    requires Trims(lib) && Faithful(lib)
    ensures r.Err? <==> Checked(lib, CopiedMarkup(lib, source, req)).Err?
    ensures r.Ok? ==> exists c :: IsClone(lib, source, c) &&
                        r.value == Composed(lib, c, CopiedCaption(lib, source, req), Checked(lib, CopiedMarkup(lib, source, req)).value)
    ensures r.Ok? ==> CopyOf(lib, source, req, r.value)
    ensures r.Ok? && TrimmedKeys(lib, source) ==>
              r.value - {CAPTION_KEY, MARKUP_KEY} == Clean(lib, source) - {CAPTION_KEY, MARKUP_KEY}
  {
    var replyMarkup := CopiedMarkup(lib, source, req);
    var caption := lib.trim(req.caption);
    if caption == "" && !req.removeCaption {
      caption := lib.trim(Read(source, CAPTION_KEY));
    }
    var bare := WithoutMarkup(lib, source);
    ghost var c :| IsClone(lib, source, c) && bare == c - {MARKUP_KEY};
    var captioned := WithCaption(lib, bare, req.caption);
    var marked := MarkupMetadata(lib, captioned, replyMarkup);
    if marked.Err? {
      return Err;
    }
    var composed := WithCaption(lib, marked.value, caption);
    var draft := CloneMetadata(lib, composed);
    CloneClean(lib, source, c);
    CopyStages(lib, c, bare, lib.trim(req.caption), captioned, Checked(lib, replyMarkup).value, marked.value, caption, composed, draft);
    ComposedIsCopy(lib, source, req, c);
    r := Ok(draft);
  }

  lemma PutCaptionClean(lib: Lib, c: Meta, caption: string)
    requires Trims(lib) && IsClean(lib, c) && lib.trim(caption) == caption
    ensures IsClean(lib, PutCaption(c, caption))
  {
    DistinctKeys();
  }

  lemma PutMarkupClean(lib: Lib, c: Meta, markup: Option<Markup>)
    requires Trims(lib) && Faithful(lib) && IsClean(lib, c)
    ensures IsClean(lib, PutMarkup(lib, c, markup))
  {
    DistinctKeys();
  }

  // A clone of a clean map, then a caption, is the caption put on the map itself.
  lemma CaptionStep(lib: Lib, c: Meta, caption: string, r: Meta)
    requires Trims(lib) && IsClean(lib, c) && lib.trim(caption) == caption
    requires exists d :: IsClone(lib, c, d) && r == PutCaption(d, caption)
    ensures r == PutCaption(c, caption) && IsClean(lib, r)
  {
    var d :| IsClone(lib, c, d) && r == PutCaption(d, caption);
    CloneFixesClean(lib, c, d);
    PutCaptionClean(lib, c, caption);
  }

  lemma MarkupStep(lib: Lib, c: Meta, markup: Option<Markup>, r: Meta)
    requires Trims(lib) && Faithful(lib) && IsClean(lib, c)
    requires exists d :: IsClone(lib, c, d) && r == PutMarkup(lib, d, markup)
    ensures r == PutMarkup(lib, c, markup) && IsClean(lib, r)
  {
    var d :| IsClone(lib, c, d) && r == PutMarkup(lib, d, markup);
    CloneFixesClean(lib, c, d);
    PutMarkupClean(lib, c, markup);
  }

  // The steps of the composition collapse: cloning again changes nothing, and the second
  // caption overrides the first.
  lemma CopyStages(lib: Lib, c: Meta, bare: Meta, first: string, captioned: Meta, markup: Option<Markup>,
                   marked: Meta, caption: string, composed: Meta, draft: Meta)
    requires Trims(lib) && Faithful(lib) && IsClean(lib, c) && lib.trim(first) == first && lib.trim(caption) == caption
    requires bare == c - {MARKUP_KEY}
    requires exists d :: IsClone(lib, bare, d) && captioned == PutCaption(d, first)
    requires exists d :: IsClone(lib, captioned, d) && marked == PutMarkup(lib, d, markup)
    requires exists d :: IsClone(lib, marked, d) && composed == PutCaption(d, caption)
    requires IsClone(lib, composed, draft)
    ensures draft == Composed(lib, c, caption, markup)
  {
    CaptionStep(lib, bare, first, captioned);
    MarkupStep(lib, captioned, markup, marked);
    CaptionStep(lib, marked, caption, composed);
    CloneFixesClean(lib, composed, draft);
    CaptionOverrides(lib, bare, first, markup, caption);
  }

  lemma CaptionOverrides(lib: Lib, bare: Meta, first: string, markup: Option<Markup>, caption: string)
    ensures PutCaption(PutMarkup(lib, PutCaption(bare, first), markup), caption)
            == PutCaption(PutMarkup(lib, bare, markup), caption)
  {
    DistinctKeys();
  }

  // A copy keeps every other entry, and reads back as the caption and keyboard given.
  lemma CopyOutcome(lib: Lib, c: Meta, caption: string, markup: Option<Markup>)
    requires Trims(lib) && Faithful(lib) && IsClean(lib, c) && lib.trim(caption) == caption && IsNormal(lib, markup)
    ensures var r := Composed(lib, c, caption, markup);
            && IsClean(lib, r)
            && r - {CAPTION_KEY, MARKUP_KEY} == c - {CAPTION_KEY, MARKUP_KEY}
            && Read(r, CAPTION_KEY) == caption
            && ReplyMarkup(lib, r) == markup
  {
    var bare := c - {MARKUP_KEY};
    var marked := PutMarkup(lib, bare, markup);
    PutMarkupClean(lib, bare, markup);
    PutCaptionClean(lib, marked, caption);
    CopyEntries(lib, c, caption, markup);
    CopyReads(lib, c, caption, markup);
  }

  lemma CopyEntries(lib: Lib, c: Meta, caption: string, markup: Option<Markup>)
    ensures var r := Composed(lib, c, caption, markup);
            r - {CAPTION_KEY, MARKUP_KEY} == c - {CAPTION_KEY, MARKUP_KEY} && Read(r, CAPTION_KEY) == caption
  {
    DistinctKeys();
  }

  lemma CopyReads(lib: Lib, c: Meta, caption: string, markup: Option<Markup>)
    requires Trims(lib) && Faithful(lib) && IsNormal(lib, markup)
    ensures ReplyMarkup(lib, Composed(lib, c, caption, markup)) == markup
  {
    DistinctKeys();
    var r := Composed(lib, c, caption, markup);
    if markup.Some? {
      assert Read(r, MARKUP_KEY) == lib.encode(markup.value);
      MarkupReadsBack(lib, r, markup.value);
    } else {
      assert MARKUP_KEY !in r;
      assert lib.trim("") == "";
    }
  }

  // A plain copy of a copy has the same metadata, through any clone of it.
  lemma CopyOfCopy(lib: Lib, c: Meta, caption: string, markup: Option<Markup>, d: Meta)
    requires Trims(lib) && Faithful(lib) && IsClean(lib, c) && lib.trim(caption) == caption && IsNormal(lib, markup)
    requires IsClone(lib, Composed(lib, c, caption, markup), d)
    ensures var r := Composed(lib, c, caption, markup);
            var plain := CopyRequest("", None, false);
            && Checked(lib, CopiedMarkup(lib, r, plain)).Ok?
            && Composed(lib, d, CopiedCaption(lib, r, plain), Checked(lib, CopiedMarkup(lib, r, plain)).value) == r
  {
    var r := Composed(lib, c, caption, markup);
    CopyOutcome(lib, c, caption, markup);
    CloneFixesClean(lib, r, d);
    assert lib.trim("") == "";
    ComposedTwice(lib, c, caption, markup);
  }

  lemma ComposedTwice(lib: Lib, c: Meta, caption: string, markup: Option<Markup>)
    ensures Composed(lib, Composed(lib, c, caption, markup), caption, markup) == Composed(lib, c, caption, markup)
  {
    DistinctKeys();
  }
}
