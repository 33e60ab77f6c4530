// Game scores: what a run of submissions leaves for a user, and the ranking shown.
module Scores {
  import opened Outcomes
  import opened Text
  import opened Order

  // Instants; 0 is the zero time.
  type Time = nat

  datatype Key = Key(bot: string, message: string, account: string)
  datatype GameScore = GameScore(account: string, score: int, createdAt: Time, updatedAt: Time)
  type Rows = map<Key, GameScore>

  // setGameScore on a game message the bot can see.
  datatype Submission = Submission(bot: string, message: string, rawUser: string, score: int, force: bool, now: Time)

  // strings.TrimSpace and the accounts that exist.
  datatype Env = Env(trim: string -> string, accounts: set<string>)

  function KeyOf(env: Env, sub: Submission): Key {
    Key(sub.bot, sub.message, env.trim(sub.rawUser))
  }

  predicate Wellformed(env: Env, sub: Submission) {
    var user := env.trim(sub.rawUser);
    user != "" && sub.score >= 0 && user in env.accounts
  }

  // A better score stands, unless forced.
  predicate Accepted(env: Env, rows: Rows, sub: Submission) {
    var key := KeyOf(env, sub);
    Wellformed(env, sub) && (key in rows && rows[key].score > sub.score ==> sub.force)
  }

  function NewRow(env: Env, rows: Rows, sub: Submission): GameScore {
    var key := KeyOf(env, sub);
    GameScore(key.account, sub.score, if key in rows then rows[key].createdAt else sub.now, sub.now)
  }

  function Submit(env: Env, rows: Rows, sub: Submission): Rows {
    if Accepted(env, rows, sub) then rows[KeyOf(env, sub) := NewRow(env, rows, sub)] else rows
  }

  class ScoreStore {
    var rows: Rows

    // The upsert leaves the creation time of an existing row alone.
    method SaveScore(key: Key, row: GameScore)
      modifies this
      ensures rows == old(rows)[key := if key in old(rows) then row.(createdAt := old(rows)[key].createdAt) else row]
    {
      rows := rows[key := if key in rows then row.(createdAt := rows[key].createdAt) else row];
    }

    method SetGameScore(env: Env, sub: Submission) returns (ok: bool)
      modifies this
      ensures ok <==> var key := Key(sub.bot, sub.message, env.trim(sub.rawUser));
                      && key.account != "" && key.account in env.accounts && sub.score >= 0
                      && (key in old(rows) && old(rows)[key].score > sub.score ==> sub.force)
      ensures rows == Submit(env, old(rows), sub)
    {
      var user := env.trim(sub.rawUser);
      if user == "" || sub.score < 0 || user !in env.accounts {
        return false;
      }
      var key := Key(sub.bot, sub.message, user);
      if key in rows && rows[key].score > sub.score && !sub.force {
        return false;
      }
      var createdAt := sub.now;
      if key in rows && rows[key].createdAt != 0 {
        createdAt := rows[key].createdAt;
      }
      SaveScore(key, GameScore(user, sub.score, createdAt, sub.now));
      return true;
    }
  }

  // --- runs of unforced submissions ---

  function After(env: Env, subs: seq<Submission>): Rows {
    if subs == [] then map[] else Submit(env, After(env, subs[..|subs| - 1]), subs[|subs| - 1])
  }

  // A well-formed submission for this user and game.
  predicate Counts(env: Env, sub: Submission, key: Key) {
    && sub.bot == key.bot && sub.message == key.message && env.trim(sub.rawUser) == key.account
    && key.account != "" && key.account in env.accounts && sub.score >= 0
  }

  ghost predicate First(env: Env, subs: seq<Submission>, key: Key, f: int) {
    0 <= f < |subs| && Counts(env, subs[f], key) && forall i :: 0 <= i < f ==> !Counts(env, subs[i], key)
  }

  // The last of the best submissions.
  ghost predicate Best(env: Env, subs: seq<Submission>, key: Key, b: int) {
    && 0 <= b < |subs| && Counts(env, subs[b], key)
    && (forall i :: 0 <= i <= b && Counts(env, subs[i], key) ==> subs[i].score <= subs[b].score)
    && (forall i :: b < i < |subs| && Counts(env, subs[i], key) ==> subs[i].score < subs[b].score)
  }

  ghost predicate NoneCounts(env: Env, subs: seq<Submission>, key: Key) {
    forall i :: 0 <= i < |subs| ==> !Counts(env, subs[i], key)
  }

  ghost predicate Unforced(subs: seq<Submission>) {
    forall i :: 0 <= i < |subs| ==> !subs[i].force && subs[i].now != 0
  }

  // After any run of unforced submissions a user's row holds the best score with the time it
  // was last reached, and the creation time of the first well-formed submission.
  lemma {:induction false} BestAndFirst(env: Env, subs: seq<Submission>, key: Key) returns (f: int, b: int)
    requires Unforced(subs)
    ensures key !in After(env, subs) <==> NoneCounts(env, subs, key)
    ensures key in After(env, subs) ==>
              && First(env, subs, key, f) && Best(env, subs, key, b)
              && After(env, subs)[key] == GameScore(key.account, subs[b].score, subs[f].now, subs[b].now)
    decreases |subs|
  {
    f, b := 0, 0;
    if subs != [] {
      var front, last := subs[..|subs| - 1], subs[|subs| - 1];
      f, b := BestAndFirst(env, front, key);
      if Counts(env, last, key) {
        if key !in After(env, front) {
          f, b := |subs| - 1, |subs| - 1;
        } else if last.score >= front[b].score {
          b := |subs| - 1;
        }
      }
    }
  }

  // --- loading and saving apart ---

  // SetGameScore loads the row and saves its own without a transaction around the two, so
  // other saves may come in between. A save carries the row it was decided on.
  datatype Save = Save(sub: Submission, seen: Option<GameScore>)

  function RowAt(rows: Rows, key: Key): Option<GameScore> {
    if key in rows then Some(rows[key]) else None
  }

  predicate Decided(env: Env, save: Save) {
    Wellformed(env, save.sub) && (save.seen.Some? && save.seen.value.score > save.sub.score ==> save.sub.force)
  }

  // The upsert of a decided save.
  function Write(env: Env, rows: Rows, save: Save): Rows {
    var key := KeyOf(env, save.sub);
    var createdAt := if save.seen.Some? then save.seen.value.createdAt else save.sub.now;
    rows[key := GameScore(key.account, save.sub.score, if key in rows then rows[key].createdAt else createdAt, save.sub.now)]
  }

  // The rows after these saves.
  function Written(env: Env, saves: seq<Save>): Rows {
    if saves == [] then map[] else Write(env, Written(env, saves[..|saves| - 1]), saves[|saves| - 1])
  }

  function Subs(saves: seq<Save>): seq<Submission> {
    if saves == [] then [] else Subs(saves[..|saves| - 1]) + [saves[|saves| - 1].sub]
  }

  // Save i was decided on the row as it stood after some m of the saves before it.
  ghost predicate LoadedAfter(env: Env, saves: seq<Save>, i: nat, m: nat)
    requires i < |saves|
  {
    m <= i && Decided(env, saves[i]) && saves[i].seen == RowAt(Written(env, saves[..m]), KeyOf(env, saves[i].sub))
  }

  ghost predicate Loaded(env: Env, saves: seq<Save>, i: nat)
    requires i < |saves|
  {
    exists m :: LoadedAfter(env, saves, i, m)
  }

  ghost predicate Interleaving(env: Env, saves: seq<Save>) {
    forall i :: 0 <= i < |saves| ==> Loaded(env, saves, i)
  }

  // Nobody has saved a better score since the row was loaded.
  ghost predicate StillBest(env: Env, saves: seq<Save>, i: nat)
    requires i < |saves|
  {
    var rows, sub := Written(env, saves[..i]), saves[i].sub;
    var key := Key(sub.bot, sub.message, env.trim(sub.rawUser));
    key in rows && rows[key].score > sub.score ==> sub.force
  }

  // A save does what the whole call would do at that moment exactly when the call would still be
  // accepted; otherwise it lowers the stored score.
  lemma StaleSaveIff(env: Env, rows: Rows, save: Save)
    requires Decided(env, save) && (save.seen.Some? ==> KeyOf(env, save.sub) in rows)
    ensures Write(env, rows, save) == Submit(env, rows, save.sub) <==> Accepted(env, rows, save.sub)
    ensures !Accepted(env, rows, save.sub) ==>
              var key := KeyOf(env, save.sub);
              key in rows && Write(env, rows, save)[key].score < rows[key].score
  {
    var key := KeyOf(env, save.sub);
    if !Accepted(env, rows, save.sub) {
      assert Write(env, rows, save)[key].score != rows[key].score;
    }
  }

  // Rows are never deleted.
  lemma {:induction false} RowsStay(env: Env, saves: seq<Save>, m: nat, n: nat, key: Key)
    requires m <= n <= |saves| && key in Written(env, saves[..m])
    ensures key in Written(env, saves[..n])
    decreases n
  {
    if m < n {
      RowsStay(env, saves, m, n - 1, key);
      assert saves[..n][..n - 1] == saves[..n - 1];
    }
  }

  // The rows after n saves are those of their submissions made one after the other.
  ghost predicate InOrder(env: Env, saves: seq<Save>, n: nat)
    requires n <= |saves|
  {
    Written(env, saves[..n]) == After(env, Subs(saves[..n]))
  }

  lemma SaveStep(env: Env, saves: seq<Save>, n: nat)
    requires n < |saves| && Interleaving(env, saves) && InOrder(env, saves, n)
    ensures InOrder(env, saves, n + 1) <==> StillBest(env, saves, n)
  {
    assert Loaded(env, saves, n);
    var m :| LoadedAfter(env, saves, n, m);
    var key := KeyOf(env, saves[n].sub);
    if saves[n].seen.Some? {
      RowsStay(env, saves, m, n, key);
    }
    assert saves[..n + 1][..n] == saves[..n];
    var subs := Subs(saves[..n]);
    assert Subs(saves[..n + 1]) == subs + [saves[n].sub];
    assert (subs + [saves[n].sub])[..|subs|] == subs;
    StaleSaveIff(env, Written(env, saves[..n]), saves[n]);
  }

  ghost predicate InOrderUpTo(env: Env, saves: seq<Save>, n: nat)
    requires n <= |saves|
  {
    forall k :: 0 <= k <= n ==> InOrder(env, saves, k)
  }

  ghost predicate BestUpTo(env: Env, saves: seq<Save>, n: nat)
    requires n <= |saves|
  {
    forall i :: 0 <= i < n ==> StillBest(env, saves, i)
  }

  lemma UpToNext(env: Env, saves: seq<Save>, n: nat)
    requires n < |saves|
    ensures InOrderUpTo(env, saves, n + 1) <==> InOrderUpTo(env, saves, n) && InOrder(env, saves, n + 1)
    ensures BestUpTo(env, saves, n + 1) <==> BestUpTo(env, saves, n) && StillBest(env, saves, n)
    ensures InOrderUpTo(env, saves, n) ==> InOrder(env, saves, n)
  {
  }

  // However loads and saves interleave: at every moment the rows are those of the submissions
  // made one after the other, in the order of their saves, exactly when no save comes after
  // someone has saved a better score.
  lemma {:induction false} InterleavingIff(env: Env, saves: seq<Save>, n: nat)
    requires n <= |saves| && Interleaving(env, saves)
    ensures InOrderUpTo(env, saves, n) <==> BestUpTo(env, saves, n)
    decreases n
  {
    if n == 0 {
      assert saves[..0] == [];
    } else {
      InterleavingIff(env, saves, n - 1);
      UpToNext(env, saves, n - 1);
      if InOrderUpTo(env, saves, n - 1) {
        SaveStep(env, saves, n - 1);
      }
    }
  }

  // --- the ranking ---

  // Higher scores first, then the earlier, then by account.
  predicate Before(a: GameScore, b: GameScore) {
    if a.score != b.score then a.score > b.score
    else if a.updatedAt != b.updatedAt then a.updatedAt < b.updatedAt
    else Less(a.account, b.account)
  }

  datatype HighScore = HighScore(position: nat, account: string, score: int)

  function Ranked(sorted: seq<GameScore>): seq<HighScore> {
    if sorted == [] then [] else
    var last := sorted[|sorted| - 1];
    Ranked(sorted[..|sorted| - 1]) + [HighScore(|sorted|, last.account, last.score)]
  }

  predicate AllKnown(env: Env, scores: seq<GameScore>) {
    forall i :: 0 <= i < |scores| ==> scores[i].account in env.accounts
  }

  // The loop over the sorted rows; a missing account ends it.
  method RankRows(env: Env, scores: seq<GameScore>) returns (result: Result<seq<HighScore>>)
    ensures result.Ok? <==> AllKnown(env, scores)
    ensures result.Ok? ==> result.value == Ranked(scores)
  {
    var table := [];
    for i := 0 to |scores|
      invariant table == Ranked(scores[..i])
      invariant forall k :: 0 <= k < i ==> scores[k].account in env.accounts
    {
      assert scores[..i + 1][..i] == scores[..i];
      if scores[i].account !in env.accounts {
        return Err;
      }
      table := table + [HighScore(i + 1, scores[i].account, scores[i].score)];
    }
    assert scores[..|scores|] == scores;
    return Ok(table);
  }

  // getGameHighScores over the rows the store lists, in whatever order.
  method GetGameHighScores(env: Env, rawUser: string, listed: seq<GameScore>) returns (result: Result<seq<HighScore>>)
    ensures result.Ok? <==> env.trim(rawUser) != "" && env.trim(rawUser) in env.accounts
                            && AllKnown(env, SortBy(Before, listed))
    ensures result.Ok? ==> result.value == Ranked(SortBy(Before, listed))
  {
    var user := env.trim(rawUser);
    if user == "" || user !in env.accounts {
      return Err;
    }
    var scores := SortBy(Before, listed);
    result := RankRows(env, scores);
  }

  lemma BeforeIsOrder()
    ensures Transitive(Before)
    ensures forall a :: !Before(a, a)
  {
    forall a, b, c | Before(a, b) && Before(b, c)
      ensures Before(a, c)
    {
      if a.score == b.score == c.score && a.updatedAt == b.updatedAt == c.updatedAt {
        LessTransitive(a.account, b.account, c.account);
      }
    }
    forall a
      ensures !Before(a, a)
    {
      LessTotal(a.account, a.account);
    }
  }

  // One row for each account, as the store's key has it.
  ghost predicate OneRowEach(scores: seq<GameScore>) {
    forall x, y :: x in scores && y in scores && x.account == y.account ==> x == y
  }

  lemma BeforeIsTotal(scores: seq<GameScore>)
    requires OneRowEach(scores)
    ensures TotalOn(Before, scores)
  {
    forall x, y | x in scores && y in scores && x != y
      ensures Before(x, y) != Before(y, x)
    {
      LessTotal(x.account, y.account);
    }
  }

  // The ranking does not depend on the order in which the store lists the rows.
  lemma RankingForgetsOrder(scores: seq<GameScore>, other: seq<GameScore>)
    requires multiset(scores) == multiset(other) && OneRowEach(scores)
    ensures Ranked(SortBy(Before, scores)) == Ranked(SortBy(Before, other))
  {
    BeforeIsOrder();
    BeforeIsTotal(scores);
    SortForgetsOrder(Before, scores, other);
  }

  lemma {:induction false} RankedAt(sorted: seq<GameScore>, i: nat)
    requires i < |sorted|
    ensures |Ranked(sorted)| == |sorted| && Ranked(sorted)[i] == HighScore(i + 1, sorted[i].account, sorted[i].score)
    decreases |sorted|
  {
    var n := |sorted| - 1;
    if i < n {
      RankedAt(sorted[..n], i);
    } else if n > 0 {
      RankedAt(sorted[..n], 0);
    }
  }

  lemma {:induction false} SortedPair(s: seq<GameScore>, i: nat, j: nat)
    requires Sorted(Before, s) && i < j < |s|
    ensures !Before(s[j], s[i])
    decreases i
  {
    if i == 0 {
      assert s[j] == s[1..][j - 1];
    } else {
      assert s[1..][i - 1] == s[i] && s[1..][j - 1] == s[j];
      SortedPair(s[1..], i - 1, j - 1);
    }
  }

  // The rows stand under positions 1..n, higher scores first, then the earlier, then by account,
  // and every listed row is there as often as it was listed.
  lemma RankingExact(scores: seq<GameScore>, i: nat, j: nat)
    requires i < j < |scores|
    ensures var s := SortBy(Before, scores);
            && multiset(s) == multiset(scores)
            && |Ranked(s)| == |scores|
            && Ranked(s)[i] == HighScore(i + 1, s[i].account, s[i].score)
            && Ranked(s)[j] == HighScore(j + 1, s[j].account, s[j].score)
            && (s[i].score > s[j].score
                || (s[i].score == s[j].score
                    && (s[i].updatedAt < s[j].updatedAt
                        || (s[i].updatedAt == s[j].updatedAt && !Less(s[j].account, s[i].account)))))
  {
    var s := SortBy(Before, scores);
    SortElements(Before, scores);
    BeforeIsOrder();
    SortSorted(Before, scores);
    SortedPair(s, i, j);
    RankedAt(s, i);
    RankedAt(s, j);
  }
}
