// One round of the mesh bridge workers: pull, send, acknowledge, then receive, group and
// submit. The meshcore and the meshtastic worker run the same algorithm.
module Mesh {
  import opened Outcomes
  import opened Text

  datatype Fragment = Fragment(id: string, payload: seq<bv8>)
  datatype Received = Received(peer: string, link: string, fragment: Option<Fragment>)
  datatype Pulled = Pulled(link: string, fragments: seq<Fragment>, lease: string)

  // normal stands for lower-casing and trimming a name.
  datatype Settings = Settings(peer: string, link: string, normal: string -> string)

  // What the bridge and the adapter see, in order.
  datatype Effect =
    | Send(peer: string, link: string, via: string, fragments: seq<Fragment>)
    | Acknowledge(peer: string, link: string, ids: seq<string>, lease: string)
    | Submit(peer: string, link: string, fragments: seq<Fragment>)

  // --- grouping ---

  const NUL: char := '\0'

  function PeerOf(s: Settings, r: Received): string {
    var p := s.normal(r.peer);
    if p == "" then s.peer else p
  }

  function LinkOf(s: Settings, r: Received): string {
    var l := s.normal(r.link);
    if l == "" then s.link else l
  }

  predicate Taken(s: Settings, r: Received) {
    r.fragment.Some? && PeerOf(s, r) != "" && LinkOf(s, r) != ""
  }

  function Join(peer: string, link: string): string {
    peer + [NUL] + link
  }

  function KeyOf(s: Settings, r: Received): string {
    Join(PeerOf(s, r), LinkOf(s, r))
  }

  // The fragments filed under a key, in arrival order.
  function FiledUnder(s: Settings, items: seq<Received>, key: string): seq<Fragment> {
    if items == [] then [] else
    var front, last := FiledUnder(s, items[..|items| - 1], key), items[|items| - 1];
    if Taken(s, last) && KeyOf(s, last) == key then front + [last.fragment.value] else front
  }

  function KeysOf(s: Settings, items: seq<Received>): set<string> {
    if items == [] then {} else
    var last := items[|items| - 1];
    KeysOf(s, items[..|items| - 1]) + if Taken(s, last) then {KeyOf(s, last)} else {}
  }

  type Groups = map<string, seq<Fragment>>

  ghost predicate IsGrouping(s: Settings, items: seq<Received>, groups: Groups) {
    groups.Keys == KeysOf(s, items) && forall key :: key in groups ==> groups[key] == FiledUnder(s, items, key)
  }

  method GroupFragments(s: Settings, items: seq<Received>) returns (groups: Groups)
    ensures IsGrouping(s, items, groups)
  {
    groups := map[];
    for i := 0 to |items|
      invariant IsGrouping(s, items[..i], groups)
    {
      assert items[..i + 1][..i] == items[..i];
      if Taken(s, items[i]) {
        var key := KeyOf(s, items[i]);
        NothingUnder(s, items[..i], key);
        groups := groups[key := (if key in groups then groups[key] else []) + [items[i].fragment.value]];
      }
    }
    assert items[..|items|] == items;
  }

  lemma {:induction false} NothingUnder(s: Settings, items: seq<Received>, key: string)
    ensures FiledUnder(s, items, key) == [] <==> key !in KeysOf(s, items)
    decreases |items|
  {
    if items != [] {
      NothingUnder(s, items[..|items| - 1], key);
    }
  }

  // --- submitting ---

  // strings.Cut of a key.
  function CutPeer(key: string): string {
    Before(key, NUL)
  }

  function CutLink(key: string): string {
    var n := |Before(key, NUL)|;
    if n == |key| then "" else key[n + 1..]
  }

  // A key gives its names back exactly when the peer name holds no NUL.
  lemma CutJoin(peer: string, link: string)
    ensures (CutPeer(Join(peer, link)) == peer && CutLink(Join(peer, link)) == link) <==> NUL !in peer
  {
    if NUL !in peer {
      BeforeOfJoin(peer, NUL, link);
      assert Join(peer, link)[|peer| + 1..] == link;
    }
  }

  function SubmitOf(groups: Groups, key: string): Effect
    requires key in groups
  {
    Submit(CutPeer(key), CutLink(key), groups[key])
  }

  function Submits(groups: Groups, order: seq<string>): seq<Effect>
    requires forall i :: 0 <= i < |order| ==> order[i] in groups
  {
    if order == [] then [] else Submits(groups, order[..|order| - 1]) + [SubmitOf(groups, order[|order| - 1])]
  }

  // An order in which a map may be visited: no key twice.
  ghost predicate Visits(groups: Groups, order: seq<string>) {
    && (forall i :: 0 <= i < |order| ==> order[i] in groups)
    && (forall i, j :: 0 <= i < j < |order| ==> order[i] != order[j])
  }

  ghost predicate VisitsAll(groups: Groups, order: seq<string>) {
    Visits(groups, order) && forall key :: key in groups ==> key in order
  }

  lemma VisitsSnoc(groups: Groups, order: seq<string>, key: string)
    requires Visits(groups, order) && key in groups && key !in order
    ensures Visits(groups, order + [key])
    ensures Submits(groups, order + [key]) == Submits(groups, order) + [SubmitOf(groups, key)]
  {
    assert (order + [key])[..|order|] == order;
  }

  // Whether the bridge takes all these submissions.
  predicate AllAccepted(accepts: Effect -> bool, effects: seq<Effect>) {
    forall i :: 0 <= i < |effects| ==> accepts(effects[i])
  }

  lemma AcceptedSnoc(accepts: Effect -> bool, effects: seq<Effect>, e: Effect)
    ensures AllAccepted(accepts, effects + [e]) <==> AllAccepted(accepts, effects) && accepts(e)
  {
    if AllAccepted(accepts, effects + [e]) {
      forall i | 0 <= i < |effects|
        ensures accepts(effects[i])
      {
        assert (effects + [e])[i] == effects[i];
      }
      assert (effects + [e])[|effects|] == e;
    }
  }

  class Bridge {
    var trace: seq<Effect>

    method SubmitGroup(effect: Effect, accepts: Effect -> bool) returns (ok: bool)
      modifies this
      ensures trace == old(trace) + [effect] && ok == accepts(effect)
    {
      trace := trace + [effect];
      ok := accepts(effect);
    }

    // The group loop, in any order; the first failing submission ends it.
    method SubmitGroups(groups: Groups, accepts: Effect -> bool) returns (ok: bool, ghost order: seq<string>)
      modifies this
      ensures Visits(groups, order) && trace == old(trace) + Submits(groups, order)
      ensures ok ==> VisitsAll(groups, order)
      ensures ok <==> AllAccepted(accepts, Submits(groups, order))
    {
      var todo := groups.Keys;
      order := [];
      while todo != {}
        invariant todo <= groups.Keys
        invariant Visits(groups, order)
        invariant forall key :: key in groups ==> (key in todo <==> key !in order)
        invariant trace == old(trace) + Submits(groups, order)
        invariant AllAccepted(accepts, Submits(groups, order))
      {
        var key :| key in todo;
        todo := todo - {key};
        var effect := SubmitOf(groups, key);
        VisitsSnoc(groups, order, key);
        AcceptedSnoc(accepts, Submits(groups, order), effect);
        order := order + [key];
        ok := SubmitGroup(effect, accepts);
        if !ok {
          return;
        }
      }
      ok := true;
    }

    // The first half of a round; the outcomes of the calls are parameters.
    method PullAndSend(s: Settings, pulled: Result<Option<Pulled>>, sent: Result<seq<string>>, acknowledged: bool)
      returns (ok: bool)
      modifies this
      ensures ok <==> SendingOk(pulled, sent, acknowledged)
      ensures trace == old(trace) + SendEffects(s, pulled, sent)
    {
      if pulled.Err? {
        return false;
      }
      if pulled.value.Some? && |pulled.value.value.fragments| > 0 {
        var p := pulled.value.value;
        trace := trace + [Send(s.peer, s.link, p.link, p.fragments)];
        if sent.Err? {
          return false;
        }
        if |sent.value| > 0 {
          trace := trace + [Acknowledge(s.peer, s.link, sent.value, p.lease)];
          if !acknowledged {
            return false;
          }
        }
      }
      return true;
    }

    // processOnce.
    method ProcessOnce(s: Settings, pulled: Result<Option<Pulled>>, sent: Result<seq<string>>, acknowledged: bool,
                       received: Result<seq<Received>>, accepts: Effect -> bool)
      returns (ok: bool, ghost groups: Groups, ghost order: seq<string>)
      modifies this
      ensures Visits(groups, order)
      ensures trace == old(trace) + SendEffects(s, pulled, sent) + Submits(groups, order)
      ensures SendingOk(pulled, sent, acknowledged) && received.Ok? ==> IsGrouping(s, received.value, groups)
      ensures ok <==> SendingOk(pulled, sent, acknowledged) && received.Ok? && AllAccepted(accepts, Submits(groups, order))
      ensures ok ==> VisitsAll(groups, order)
    {
      groups, order := map[], [];
      ok := PullAndSend(s, pulled, sent, acknowledged);
      if !ok || received.Err? {
        return false, groups, order;
      }
      var grouped := GroupFragments(s, received.value);
      groups := grouped;
      ok, order := SubmitGroups(grouped, accepts);
    }
  }

  // --- what a round amounts to ---

  predicate HasWork(pulled: Result<Option<Pulled>>) {
    pulled.Ok? && pulled.value.Some? && |pulled.value.value.fragments| > 0
  }

  predicate SendingOk(pulled: Result<Option<Pulled>>, sent: Result<seq<string>>, acknowledged: bool) {
    pulled.Ok? && (HasWork(pulled) ==> sent.Ok? && (sent.value != [] ==> acknowledged))
  }

  // Everything pulled is sent on; exactly the reported IDs are acknowledged, under the lease
  // they were pulled with, and only when there are any.
  function SendEffects(s: Settings, pulled: Result<Option<Pulled>>, sent: Result<seq<string>>): seq<Effect> {
    if !HasWork(pulled) then [] else
    var p := pulled.value.value;
    [Send(s.peer, s.link, p.link, p.fragments)]
    + if sent.Ok? && sent.value != [] then [Acknowledge(s.peer, s.link, sent.value, p.lease)] else []
  }

  // --- the submitted groups partition what was received ---

  // The item came from this peer over this link; a name left blank means the configured one.
  ghost predicate CameFrom(s: Settings, r: Received, peer: string, link: string) {
    && (s.normal(r.peer) == peer != "" || (s.normal(r.peer) == "" && s.peer == peer))
    && (s.normal(r.link) == link != "" || (s.normal(r.link) == "" && s.link == link))
  }

  // It holds a fragment and both names are known.
  ghost predicate Usable(s: Settings, r: Received) {
    r.fragment.Some? && exists peer, link :: peer != "" && link != "" && CameFrom(s, r, peer, link)
  }

  // The fragments a round must pass on.
  ghost function Accepted(s: Settings, items: seq<Received>): seq<Fragment> {
    if items == [] then [] else
    var front, last := Accepted(s, items[..|items| - 1]), items[|items| - 1];
    if Usable(s, last) then front + [last.fragment.value] else front
  }

  lemma {:induction false} TakenIff(s: Settings, r: Received)
    ensures CameFrom(s, r, PeerOf(s, r), LinkOf(s, r))
    ensures Taken(s, r) <==> Usable(s, r)
  {
    if Usable(s, r) {
      var peer, link :| peer != "" && link != "" && CameFrom(s, r, peer, link);
    }
  }

  // The fragments from one peer over one link, in arrival order.
  ghost function FilteredBy(s: Settings, items: seq<Received>, peer: string, link: string): seq<Fragment> {
    if items == [] then [] else
    var front, last := FilteredBy(s, items[..|items| - 1], peer, link), items[|items| - 1];
    if last.fragment.Some? && CameFrom(s, last, peer, link) then front + [last.fragment.value] else front
  }

  ghost predicate NulFree(s: Settings, items: seq<Received>) {
    forall i :: 0 <= i < |items| ==>
                  NUL !in s.normal(items[i].peer) && (s.normal(items[i].peer) == "" ==> NUL !in s.peer)
  }

  lemma KeysDiffer(peer: string, link: string, otherPeer: string, otherLink: string)
    requires NUL !in peer && NUL !in otherPeer && Join(peer, link) == Join(otherPeer, otherLink)
    ensures peer == otherPeer && link == otherLink
  {
    CutJoin(peer, link);
    CutJoin(otherPeer, otherLink);
  }

  lemma {:induction false} FiledIsFiltered(s: Settings, items: seq<Received>, peer: string, link: string)
    requires NulFree(s, items) && NUL !in peer && peer != "" && link != ""
    ensures FiledUnder(s, items, Join(peer, link)) == FilteredBy(s, items, peer, link)
    decreases |items|
  {
    if items != [] {
      var last := items[|items| - 1];
      FiledIsFiltered(s, items[..|items| - 1], peer, link);
      TakenIff(s, last);
      if KeyOf(s, last) == Join(peer, link) {
        KeysDiffer(PeerOf(s, last), LinkOf(s, last), peer, link);
      }
    }
  }

  lemma {:induction false} KeyOrigin(s: Settings, items: seq<Received>, key: string) returns (i: nat)
    requires key in KeysOf(s, items)
    ensures i < |items| && Taken(s, items[i]) && KeyOf(s, items[i]) == key
    decreases |items|
  {
    var n := |items| - 1;
    if Taken(s, items[n]) && KeyOf(s, items[n]) == key {
      i := n;
    } else {
      i := KeyOrigin(s, items[..n], key);
    }
  }

  // Each submission goes out under the names of the fragments it carries, all of them and no
  // others, in arrival order; and it is never empty.
  lemma SubmitsOwnFragments(s: Settings, items: seq<Received>, groups: Groups, key: string)
    requires NulFree(s, items) && IsGrouping(s, items, groups) && key in groups
    ensures var e := SubmitOf(groups, key);
            e.fragments == FilteredBy(s, items, e.peer, e.link) && e.fragments != [] && e.peer != "" && e.link != ""
  {
    var i := KeyOrigin(s, items, key);
    var peer, link := PeerOf(s, items[i]), LinkOf(s, items[i]);
    CutJoin(peer, link);
    FiledIsFiltered(s, items, peer, link);
    NothingUnder(s, items, key);
  }

  // Every usable item is among them, under its own names.
  lemma {:induction false} EachIsSubmitted(s: Settings, items: seq<Received>, groups: Groups, i: nat, peer: string, link: string)
    requires NulFree(s, items) && IsGrouping(s, items, groups)
    requires i < |items| && items[i].fragment.Some?
    requires peer != "" && link != "" && CameFrom(s, items[i], peer, link)
    ensures exists key :: key in groups && SubmitOf(groups, key) == Submit(peer, link, FilteredBy(s, items, peer, link))
    ensures items[i].fragment.value in FilteredBy(s, items, peer, link)
  {
    FilteredHas(s, items, i, peer, link);
    TakenIff(s, items[i]);
    var key := KeyOf(s, items[i]);
    CutJoin(peer, link);
    FiledIsFiltered(s, items, peer, link);
    NothingUnder(s, items, key);
  }

  lemma {:induction false} FilteredHas(s: Settings, items: seq<Received>, i: nat, peer: string, link: string)
    requires i < |items| && items[i].fragment.Some? && CameFrom(s, items[i], peer, link)
    ensures items[i].fragment.value in FilteredBy(s, items, peer, link)
    decreases |items|
  {
    if i < |items| - 1 {
      FilteredHas(s, items[..|items| - 1], i, peer, link);
    }
  }

  // All the groups one after the other.
  function Together(s: Settings, items: seq<Received>, order: seq<string>): seq<Fragment> {
    if order == [] then [] else
    Together(s, items, order[..|order| - 1]) + FiledUnder(s, items, order[|order| - 1])
  }

  lemma {:induction false} TogetherAdds(s: Settings, front: seq<Received>, last: Received, items: seq<Received>, order: seq<string>)
    requires items == front + [last]
    requires forall i, j :: 0 <= i < j < |order| ==> order[i] != order[j]
    ensures multiset(Together(s, items, order)) ==
              multiset(Together(s, front, order))
              + if Taken(s, last) && KeyOf(s, last) in order then multiset{last.fragment.value} else multiset{}
    decreases |order|
  {
    if order != [] {
      var rest, key := order[..|order| - 1], order[|order| - 1];
      assert items[..|items| - 1] == front;
      TogetherAdds(s, front, last, items, rest);
      assert order == rest + [key];
      assert key !in rest;
    }
  }

  // Conservation: whatever order the groups are visited in, together they hold every accepted
  // fragment as often as it was received.
  lemma {:induction false} GroupsPartition(s: Settings, items: seq<Received>, order: seq<string>)
    requires forall i, j :: 0 <= i < j < |order| ==> order[i] != order[j]
    requires forall key :: key in KeysOf(s, items) ==> key in order
    ensures multiset(Together(s, items, order)) == multiset(Accepted(s, items))
    decreases |items|
  {
    if items == [] {
      NothingTogether(s, order);
    } else {
      var front, last := items[..|items| - 1], items[|items| - 1];
      assert items == front + [last];
      TakenIff(s, last);
      GroupsPartition(s, front, order);
      TogetherAdds(s, front, last, items, order);
    }
  }

  lemma {:induction false} NothingTogether(s: Settings, order: seq<string>)
    ensures Together(s, [], order) == []
    decreases |order|
  {
    if order != [] {
      NothingTogether(s, order[..|order| - 1]);
    }
  }

  function Carried(effects: seq<Effect>): seq<Fragment> {
    if effects == [] then [] else
    var front, last := Carried(effects[..|effects| - 1]), effects[|effects| - 1];
    if last.Acknowledge? then front else front + last.fragments
  }

  lemma {:induction false} SubmitsCarry(s: Settings, items: seq<Received>, groups: Groups, order: seq<string>)
    requires IsGrouping(s, items, groups) && Visits(groups, order)
    ensures Carried(Submits(groups, order)) == Together(s, items, order)
    decreases |order|
  {
    if order != [] {
      var rest := order[..|order| - 1];
      SubmitsCarry(s, items, groups, rest);
      assert Submits(groups, order)[..|Submits(groups, order)| - 1] == Submits(groups, rest);
    }
  }

  // A round whose submissions all succeed passes on every accepted fragment, none twice.
  lemma RoundConserves(s: Settings, items: seq<Received>, groups: Groups, order: seq<string>)
    requires IsGrouping(s, items, groups) && VisitsAll(groups, order)
    ensures multiset(Carried(Submits(groups, order))) == multiset(Accepted(s, items))
  {
    SubmitsCarry(s, items, groups, order);
    GroupsPartition(s, items, order);
  }
}
