// The end-to-end encryption overlay of the conversation list: which devices block a
// conversation, in which order, and whether an encrypted message can be sent now.
module Overlay {
  import opened Text
  import opened Order

  datatype TrustState = Unspecified | Trusted | Untrusted | Compromised

  datatype Device = Device(
    accountID: string, deviceID: string, trust: TrustState, fingerprint: string, conversationIDs: seq<string>)

  datatype Hint = NoHint | VerifyDevice | RemoveCompromisedDevice

  datatype BlockedDevice = BlockedDevice(
    userID: string, deviceID: string, trust: TrustState, fingerprint: string, hint: Hint)

  datatype Overlay = Overlay(
    required: nat, untrusted: nat, compromised: nat, hint: Hint, blocked: seq<BlockedDevice>)

  function DeviceKey(d: Device): string {
    d.accountID + ":" + d.deviceID
  }

  // --- grouping by conversation ---

  // The devices listed for one conversation; of two with the same key the later stays.
  function DeviceSet(devices: seq<Device>, conversationID: string): map<string, Device> {
    if devices == [] then map[] else
    var last := devices[|devices| - 1];
    var front := DeviceSet(devices[..|devices| - 1], conversationID);
    if conversationID in last.conversationIDs then front[DeviceKey(last) := last] else front
  }

  predicate Listed(devices: seq<Device>, conversationID: string) {
    exists d :: d in devices && conversationID in d.conversationIDs
  }

  lemma {:induction false} DeviceSetKeys(devices: seq<Device>, conversationID: string)
    ensures forall k :: k in DeviceSet(devices, conversationID) ==> DeviceKey(DeviceSet(devices, conversationID)[k]) == k
    ensures DeviceSet(devices, conversationID) != map[] <==> Listed(devices, conversationID)
  {
    if devices != [] {
      var front, last := devices[..|devices| - 1], devices[|devices| - 1];
      assert devices == front + [last];
      DeviceSetKeys(front, conversationID);
      var set0 := DeviceSet(front, conversationID);
      assert Listed(devices, conversationID) <==> Listed(front, conversationID) || conversationID in last.conversationIDs by {
        assert last in devices;
        assert forall d :: d in front ==> d in devices;
      }
      if conversationID in last.conversationIDs {
        assert DeviceKey(last) in set0[DeviceKey(last) := last];
      }
    }
  }

  // The i-th device is the last one of its key that names the conversation.
  ghost predicate LastOfKey(devices: seq<Device>, conversationID: string, i: nat) {
    && i < |devices| && conversationID in devices[i].conversationIDs
    && forall j :: i < j < |devices| && conversationID in devices[j].conversationIDs ==>
         devices[j].accountID + ":" + devices[j].deviceID != devices[i].accountID + ":" + devices[i].deviceID
  }

  // A set holds, for each key, the last device of that key that names the conversation.
  lemma {:induction false} DeviceSetExact(devices: seq<Device>, conversationID: string, d: Device)
    ensures var s, key := DeviceSet(devices, conversationID), d.accountID + ":" + d.deviceID;
            key in s && s[key] == d <==> exists i: nat :: LastOfKey(devices, conversationID, i) && devices[i] == d
    decreases |devices|
  {
    if devices != [] {
      var n := |devices| - 1;
      var front, last := devices[..n], devices[n];
      DeviceSetExact(front, conversationID, d);
      forall i: nat | i < n
        ensures LastOfKey(devices, conversationID, i) <==>
                  LastOfKey(front, conversationID, i)
                  && !(conversationID in last.conversationIDs && DeviceKey(last) == DeviceKey(devices[i]))
      {
        assert forall j :: i < j < n ==> front[j] == devices[j];
      }
      if conversationID in last.conversationIDs {
        assert LastOfKey(devices, conversationID, n);
      }
      if i: nat :| LastOfKey(front, conversationID, i) && front[i] == d {
        assert devices[i] == d;
      }
    }
  }

  // The map-of-maps the first loop of conversationE2EEOverlays fills.
  method GroupByConversation(devices: seq<Device>) returns (byConversation: map<string, map<string, Device>>)
    ensures forall c :: c in byConversation <==> Listed(devices, c)
    ensures forall c :: c in byConversation ==> byConversation[c] == DeviceSet(devices, c)
  {
    byConversation := map[];
    for i := 0 to |devices|
      invariant forall c :: Entry(byConversation, c) == DeviceSet(devices[..i], c)
      invariant forall c :: c in byConversation ==> byConversation[c] != map[]
    {
      var item := devices[i];
      assert devices[..i + 1][..i] == devices[..i];
      byConversation := AddDevice(byConversation, item);
    }
    assert devices[..|devices|] == devices;
    forall c
      ensures c in byConversation <==> Listed(devices, c)
    {
      DeviceSetKeys(devices, c);
    }
  }

  // An absent inner map reads as empty.
  function Entry(m: map<string, map<string, Device>>, c: string): map<string, Device> {
    if c in m then m[c] else map[]
  }

  // The inner loop: the device goes into the set of each conversation it names.
  method AddDevice(before: map<string, map<string, Device>>, item: Device)
    returns (after: map<string, map<string, Device>>)
    requires forall c :: c in before ==> before[c] != map[]
    ensures forall c :: c in after ==> after[c] != map[]
    ensures forall c :: Entry(after, c) ==
                        if c in item.conversationIDs then Entry(before, c)[DeviceKey(item) := item] else Entry(before, c)
  {
    after := before;
    for j := 0 to |item.conversationIDs|
      invariant forall c :: c in after ==> after[c] != map[]
      invariant forall c :: Entry(after, c) ==
                            if c in item.conversationIDs[..j] then Entry(before, c)[DeviceKey(item) := item]
                            else Entry(before, c)
    {
      var c := item.conversationIDs[j];
      var deviceSet := Entry(after, c)[DeviceKey(item) := item];
      assert DeviceKey(item) in deviceSet;
      after := after[c := deviceSet];
      assert item.conversationIDs[..j + 1] == item.conversationIDs[..j] + [c];
    }
    assert item.conversationIDs[..|item.conversationIDs|] == item.conversationIDs;
  }

  // --- the order of blocked devices ---

  // The comparison function handed to the sort, less than zero.
  predicate Precedes(left: Device, right: Device) {
    if left.trust != right.trust && left.trust.Compromised? then true
    else if left.trust != right.trust && right.trust.Compromised? then false
    else if left.accountID != right.accountID then Less(left.accountID, right.accountID)
    else Less(left.deviceID, right.deviceID)
  }

  // Compromised first, then account, then device.
  predicate ListedBefore(left: Device, right: Device) {
    if left.trust.Compromised? != right.trust.Compromised? then left.trust.Compromised?
    else Less(left.accountID, right.accountID)
         || (left.accountID == right.accountID && Less(left.deviceID, right.deviceID))
  }

  lemma PrecedesIsListedBefore(left: Device, right: Device)
    ensures Precedes(left, right) <==> ListedBefore(left, right)
  {
    LessTotal(left.accountID, right.accountID);
    LessTotal(right.accountID, right.accountID);
  }

  lemma PrecedesTransitive(x: Device, y: Device, z: Device)
    requires Precedes(x, y) && Precedes(y, z)
    ensures Precedes(x, z)
  {
    PrecedesIsListedBefore(x, y);
    PrecedesIsListedBefore(y, z);
    PrecedesIsListedBefore(x, z);
    if Less(x.accountID, y.accountID) && Less(y.accountID, z.accountID) {
      LessTransitive(x.accountID, y.accountID, z.accountID);
    }
    if Less(x.deviceID, y.deviceID) && Less(y.deviceID, z.deviceID) {
      LessTransitive(x.deviceID, y.deviceID, z.deviceID);
    }
  }

  lemma PrecedesOrders(x: Device, y: Device)
    ensures !Precedes(x, x)
    ensures (x.accountID, x.deviceID) != (y.accountID, y.deviceID) ==> Precedes(x, y) != Precedes(y, x)
  {
    LessTotal(x.deviceID, x.deviceID);
    LessTotal(x.accountID, y.accountID);
    LessTotal(x.deviceID, y.deviceID);
  }

  lemma PrecedesIsStrict()
    ensures Transitive(Precedes) && forall y :: !Precedes(y, y)
  {
    forall x, y, z | Precedes(x, y) && Precedes(y, z)
      ensures Precedes(x, z)
    {
      PrecedesTransitive(x, y, z);
    }
    forall y
      ensures !Precedes(y, y)
    {
      PrecedesOrders(y, y);
    }
  }

  // Entries of one device set have different keys, so the comparison tells them apart.
  ghost predicate KeysDiffer(ds: seq<Device>) {
    forall x, y :: x in ds && y in ds && x != y ==> DeviceKey(x) != DeviceKey(y)
  }

  lemma PrecedesTotalOn(ds: seq<Device>)
    requires KeysDiffer(ds)
    ensures TotalOn(Precedes, ds)
  {
    forall x, y | x in ds && y in ds && x != y
      ensures Precedes(x, y) != Precedes(y, x)
    {
      PrecedesOrders(x, y);
    }
  }

  // --- one overlay ---

  function HintFor(trust: TrustState): Hint {
    if trust.Compromised? then RemoveCompromisedDevice else VerifyDevice
  }

  // deviceTrustStateProto with its fallback for the unspecified state.
  function ShownTrust(trust: TrustState): TrustState {
    if trust.Unspecified? then Untrusted else trust
  }

  function Show(d: Device): BlockedDevice {
    BlockedDevice(d.accountID, d.deviceID, ShownTrust(d.trust), d.fingerprint, HintFor(d.trust))
  }

  function ShowAll(ds: seq<Device>): (r: seq<BlockedDevice>)
    ensures |r| == |ds|
  {
    if ds == [] then [] else [Show(ds[0])] + ShowAll(ds[1..])
  }

  function CompromisedCount(ds: seq<Device>): (n: nat)
    ensures n <= |ds|
  {
    if ds == [] then 0 else (if ds[0].trust.Compromised? then 1 else 0) + CompromisedCount(ds[1..])
  }

  // conversationPrimaryE2EERemediationHint.
  function PrimaryHint(compromised: nat, required: nat): Hint {
    if compromised > 0 then RemoveCompromisedDevice else if required > 0 then VerifyDevice else NoHint
  }

  // Some enumeration of the values of a device set, each key once.
  ghost predicate Enumerates(ds: seq<Device>, deviceSet: map<string, Device>) {
    && |ds| == |deviceSet|
    && (forall d :: d in ds ==> DeviceKey(d) in deviceSet && deviceSet[DeviceKey(d)] == d)
    && (forall k :: k in deviceSet ==> deviceSet[k] in ds)
    && (forall i, j :: 0 <= i < j < |ds| ==> DeviceKey(ds[i]) != DeviceKey(ds[j]))
  }

  function OverlayOf(ds: seq<Device>): Overlay {
    var compromised := CompromisedCount(ds);
    Overlay(|ds|, |ds| - compromised, compromised, PrimaryHint(compromised, |ds|), ShowAll(SortBy(Precedes, ds)))
  }

  ghost predicate WellKeyed(deviceSet: map<string, Device>) {
    forall k :: k in deviceSet ==> DeviceKey(deviceSet[k]) == k
  }

  // The inner loop of the second pass: the devices of one conversation, in the arbitrary order
  // of the map, and how many of them are untrusted and compromised.
  method CountDevices(deviceSet: map<string, Device>) returns (devices: seq<Device>, untrusted: nat, compromised: nat)
    requires WellKeyed(deviceSet)
    ensures Enumerates(devices, deviceSet)
    ensures compromised == CompromisedCount(devices) && untrusted + compromised == |devices| == |deviceSet|
  {
    devices, untrusted, compromised := [], 0, 0;
    var todo := deviceSet.Keys;
    while todo != {}
      invariant todo <= deviceSet.Keys && |devices| == |deviceSet| - |todo|
      invariant forall d :: d in devices ==>
                  DeviceKey(d) in deviceSet && DeviceKey(d) !in todo && deviceSet[DeviceKey(d)] == d
      invariant forall k :: k in deviceSet && k !in todo ==> deviceSet[k] in devices
      invariant forall i, j :: 0 <= i < j < |devices| ==> DeviceKey(devices[i]) != DeviceKey(devices[j])
      invariant compromised == CompromisedCount(devices) && untrusted + compromised == |devices|
      decreases |todo|
    {
      var k :| k in todo;
      var device := deviceSet[k];
      CountAppend(devices, device);
      forall i | 0 <= i < |devices|
        ensures DeviceKey(devices[i]) != k
      {
        assert devices[i] in devices;
      }
      assert (devices + [device])[|devices|] == device;
      devices := devices + [device];
      if device.trust.Compromised? {
        compromised := compromised + 1;
      } else {
        untrusted := untrusted + 1;
      }
      todo := todo - {k};
    }
  }

  // The second loop of conversationE2EEOverlays for one conversation.
  method BuildOverlay(deviceSet: map<string, Device>) returns (overlay: Overlay)
    requires WellKeyed(deviceSet)
    ensures exists order :: Enumerates(order, deviceSet) && overlay == OverlayOf(order)
  {
    var devices, untrusted, compromised := CountDevices(deviceSet);
    var sorted := SortBy(Precedes, devices);
    overlay := Overlay(|deviceSet|, untrusted, compromised, PrimaryHint(compromised, |deviceSet|), ShowAll(sorted));
  }

  lemma {:induction false} CountAppend(ds: seq<Device>, d: Device)
    ensures CompromisedCount(ds + [d]) == CompromisedCount(ds) + (if d.trust.Compromised? then 1 else 0)
  {
    if ds == [] {
      assert ds + [d] == [d];
    } else {
      assert (ds + [d])[1..] == ds[1..] + [d];
      CountAppend(ds[1..], d);
    }
  }

  lemma {:induction false} CountInsert(d: Device, ds: seq<Device>)
    ensures CompromisedCount(Insert(Precedes, d, ds)) == CompromisedCount(ds + [d])
  {
    CountAppend(ds, d);
    if ds != [] && !Precedes(d, ds[0]) {
      CountInsert(d, ds[1..]);
      CountAppend(ds[1..], d);
    }
  }

  // Sorting does not change the count.
  lemma {:induction false} CountSorted(ds: seq<Device>)
    ensures CompromisedCount(SortBy(Precedes, ds)) == CompromisedCount(ds)
  {
    if ds != [] {
      var front, last := ds[..|ds| - 1], ds[|ds| - 1];
      assert ds == front + [last];
      CountSorted(front);
      CountInsert(last, SortBy(Precedes, front));
      CountAppend(front, last);
      CountAppend(SortBy(Precedes, front), last);
    }
  }

  lemma EnumerationKeys(ds: seq<Device>, deviceSet: map<string, Device>)
    requires Enumerates(ds, deviceSet)
    ensures KeysDiffer(ds) && Distinct(ds)
    ensures forall x :: x in ds <==> DeviceKey(x) in deviceSet && deviceSet[DeviceKey(x)] == x
  {
  }

  // Whatever order the map is walked in, the overlay is the same.
  lemma OverlayForgetsMapOrder(deviceSet: map<string, Device>, a: seq<Device>, b: seq<Device>)
    requires Enumerates(a, deviceSet) && Enumerates(b, deviceSet)
    ensures OverlayOf(a) == OverlayOf(b)
  {
    EnumerationKeys(a, deviceSet);
    EnumerationKeys(b, deviceSet);
    DistinctSameElements(a, b);
    PrecedesIsStrict();
    PrecedesTotalOn(a);
    SortForgetsOrder(Precedes, a, b);
    CountSorted(a);
    CountSorted(b);
  }

  // required = untrusted + compromised = number of blocked devices, and the headline hint
  // is the hint of the first blocked device.
  lemma OverlayCounts(deviceSet: map<string, Device>, ds: seq<Device>)
    requires Enumerates(ds, deviceSet)
    ensures var o := OverlayOf(ds);
            && o.required == |deviceSet| == |o.blocked|
            && o.required == o.untrusted + o.compromised
            && o.hint == if o.blocked == [] then NoHint else o.blocked[0].hint
  {
    var sorted := SortBy(Precedes, ds);
    CountSorted(ds);
    if ds != [] {
      PrecedesIsStrict();
      SortSorted(Precedes, ds);
      FirstCompromised(sorted);
    }
  }

  lemma {:induction false} NoneCompromised(ds: seq<Device>)
    ensures CompromisedCount(ds) == 0 <==> forall d :: d in ds ==> !d.trust.Compromised?
  {
    if ds != [] {
      assert ds == [ds[0]] + ds[1..];
      NoneCompromised(ds[1..]);
    }
  }

  // In a sorted list some device is compromised exactly when the first one is.
  lemma FirstCompromised(ds: seq<Device>)
    requires Sorted(Precedes, ds) && ds != []
    ensures ds[0].trust.Compromised? <==> CompromisedCount(ds) > 0
  {
    NoneCompromised(ds);
    assert ds == [ds[0]] + ds[1..];
    if !ds[0].trust.Compromised? {
      forall d | d in ds
        ensures !d.trust.Compromised?
      {
        if d != ds[0] {
          assert !Precedes(d, ds[0]);
        }
      }
    } else {
      assert ds[0] in ds;
    }
  }

  // The blocked list shows every device of the set, compromised first, then by account and device.
  lemma BlockedListExact(deviceSet: map<string, Device>, ds: seq<Device>)
    requires Enumerates(ds, deviceSet)
    ensures var sorted := SortBy(Precedes, ds);
            && OverlayOf(ds).blocked == ShowAll(sorted)
            && Sorted(ListedBefore, sorted)
            && (forall d :: d in sorted <==> DeviceKey(d) in deviceSet && deviceSet[DeviceKey(d)] == d)
  {
    var sorted := SortBy(Precedes, ds);
    PrecedesIsStrict();
    SortSorted(Precedes, ds);
    SortElements(Precedes, ds);
    SameMembers(sorted, ds);
    SameOrder(sorted);
  }

  lemma {:induction false} ShowAllAt(ds: seq<Device>, i: nat)
    requires i < |ds|
    ensures ShowAll(ds)[i] == Show(ds[i])
  {
    if i > 0 {
      ShowAllAt(ds[1..], i - 1);
    }
  }

  // The i-th entry shows the i-th device: its account, ID and fingerprint, its trust (untrusted
  // when none is known), and what to do about it.
  lemma {:induction false} BlockedEntry(ds: seq<Device>, i: nat)
    requires i < |ds|
    ensures var shown, d := OverlayOf(ds).blocked[i], SortBy(Precedes, ds)[i];
            && shown.userID == d.accountID && shown.deviceID == d.deviceID && shown.fingerprint == d.fingerprint
            && shown.trust == (if d.trust == Unspecified then Untrusted else d.trust)
            && shown.hint == (if d.trust == Compromised then RemoveCompromisedDevice else VerifyDevice)
  {
    ShowAllAt(SortBy(Precedes, ds), i);
  }

  // The positions of compromised devices.
  ghost function CompromisedAt(blocked: seq<BlockedDevice>): set<int> {
    set i | 0 <= i < |blocked| && blocked[i].trust == Compromised
  }

  lemma {:induction false} ShowAllSnoc(ds: seq<Device>)
    requires ds != []
    ensures ShowAll(ds) == ShowAll(ds[..|ds| - 1]) + [Show(ds[|ds| - 1])]
  {
    if |ds| > 1 {
      assert ds[1..][..|ds| - 2] == ds[..|ds| - 1][1..];
      ShowAllSnoc(ds[1..]);
    }
  }

  lemma {:induction false} CountIsPositions(ds: seq<Device>)
    ensures CompromisedCount(ds) == |CompromisedAt(ShowAll(ds))|
    decreases |ds|
  {
    if ds != [] {
      var n := |ds| - 1;
      var front, last := ds[..n], ds[n];
      CountIsPositions(front);
      assert ds == front + [last];
      CountAppend(front, last);
      ShowAllSnoc(ds);
      var before, all := CompromisedAt(ShowAll(front)), CompromisedAt(ShowAll(ds));
      if last.trust.Compromised? {
        assert all == before + {n};
      } else {
        assert all == before;
      }
    }
  }

  // The compromised counter counts the entries shown as compromised.
  lemma {:induction false} CounterCounts(ds: seq<Device>)
    ensures OverlayOf(ds).compromised == |CompromisedAt(OverlayOf(ds).blocked)|
  {
    CountSorted(ds);
    CountIsPositions(SortBy(Precedes, ds));
  }

  lemma {:induction false} SameOrder(ds: seq<Device>)
    requires Sorted(Precedes, ds)
    ensures Sorted(ListedBefore, ds)
  {
    if ds != [] {
      SameOrder(ds[1..]);
      forall d | d in ds[1..]
        ensures !ListedBefore(d, ds[0])
      {
        PrecedesIsListedBefore(d, ds[0]);
      }
    }
  }
}

// conversationEncryptedSendState.
module SendGate {
  import opened Overlay

  datatype Kind = Direct | Group | Channel | SavedMessages | OtherKind

  // `ready` is the Ready coverage state.
  datatype Coverage = Coverage(trust: TrustState, ready: bool)

  datatype Reason =
    | NoReason | UnsupportedKind | MissingKeyCoverage | CompromisedDevicePresent | VerifyDevicesRequired

  datatype Lookup = Found(entries: seq<Coverage>) | Failed

  // The reason the first unacceptable entry gives.
  function FirstProblem(entries: seq<Coverage>): Reason {
    if entries == [] then NoReason
    else if entries[0].trust.Compromised? then CompromisedDevicePresent
    else if !entries[0].ready then MissingKeyCoverage
    else FirstProblem(entries[1..])
  }

  function SendState(kind: Kind, lookup: Lookup, requireTrusted: bool, untrusted: nat): (bool, Reason) {
    if !kind.Direct? && !kind.Group? then (false, UnsupportedKind)
    else if lookup.Failed? then (false, MissingKeyCoverage)
    else if FirstProblem(lookup.entries) != NoReason then (false, FirstProblem(lookup.entries))
    else if requireTrusted && untrusted > 0 then (false, VerifyDevicesRequired)
    else (true, NoReason)
  }

  method EncryptedSendState(kind: Kind, lookup: Lookup, requireTrusted: bool, untrusted: nat)
    returns (ok: bool, reason: Reason)
    ensures (ok, reason) == SendState(kind, lookup, requireTrusted, untrusted)
  {
    if !kind.Direct? && !kind.Group? {
      return false, UnsupportedKind;
    }
    if lookup.Failed? {
      return false, MissingKeyCoverage;
    }
    for i := 0 to |lookup.entries|
      invariant FirstProblem(lookup.entries) == FirstProblem(lookup.entries[i..])
    {
      if lookup.entries[i].trust.Compromised? {
        return false, CompromisedDevicePresent;
      }
      if !lookup.entries[i].ready {
        return false, MissingKeyCoverage;
      }
    }
    if requireTrusted && untrusted > 0 {
      return false, VerifyDevicesRequired;
    }
    return true, NoReason;
  }

  lemma {:induction false} FirstProblemNone(entries: seq<Coverage>)
    ensures FirstProblem(entries) == NoReason <==> forall c :: c in entries ==> c.trust != Compromised && c.ready
    ensures FirstProblem(entries) == CompromisedDevicePresent ==> exists c :: c in entries && c.trust.Compromised?
    ensures FirstProblem(entries) == MissingKeyCoverage ==>
              exists c :: c in entries && !c.trust.Compromised? && !c.ready
    ensures FirstProblem(entries) in {NoReason, CompromisedDevicePresent, MissingKeyCoverage}
  {
    if entries != [] {
      FirstProblemNone(entries[1..]);
      assert entries == [entries[0]] + entries[1..];
      assert entries[0] in entries;
    }
  }

  // The send flag is a conjunction over the coverage entries, whatever their order.
  lemma SendFlagIsConjunction(kind: Kind, lookup: Lookup, requireTrusted: bool, untrusted: nat)
    ensures SendState(kind, lookup, requireTrusted, untrusted).0 <==>
              && (kind.Direct? || kind.Group?)
              && lookup.Found?
              && (forall c :: c in lookup.entries ==> c.trust != Compromised && c.ready)
              && (requireTrusted ==> untrusted == 0)
    ensures SendState(kind, lookup, requireTrusted, untrusted).0 <==>
              SendState(kind, lookup, requireTrusted, untrusted).1 == NoReason
  {
    if lookup.Found? {
      FirstProblemNone(lookup.entries);
    }
  }

  // The entry the refusal is about: everything before it is in order, it is not.
  ghost predicate FirstBad(entries: seq<Coverage>, i: nat) {
    && i < |entries| && (entries[i].trust == Compromised || !entries[i].ready)
    && forall k :: 0 <= k < i ==> entries[k].trust != Compromised && entries[k].ready
  }

  lemma {:induction false} FirstProblemAt(entries: seq<Coverage>, i: nat)
    requires FirstBad(entries, i)
    ensures FirstProblem(entries) == if entries[i].trust == Compromised then CompromisedDevicePresent else MissingKeyCoverage
  {
    if i > 0 {
      assert FirstBad(entries[1..], i - 1);
      FirstProblemAt(entries[1..], i - 1);
    }
  }

  // Why a send is refused, in this order: the kind of chat, a lookup that failed, the first entry
  // that is out of order, and untrusted devices where trust is required.
  lemma {:induction false} ReasonIs(kind: Kind, lookup: Lookup, requireTrusted: bool, untrusted: nat)
    ensures var reason := SendState(kind, lookup, requireTrusted, untrusted).1;
            if kind != Direct && kind != Group then reason == UnsupportedKind
            else if lookup.Failed? then reason == MissingKeyCoverage
            else
              && (forall i: nat :: FirstBad(lookup.entries, i) ==>
                    reason == if lookup.entries[i].trust == Compromised then CompromisedDevicePresent else MissingKeyCoverage)
              && ((forall c :: c in lookup.entries ==> c.trust != Compromised && c.ready) ==>
                    reason == if requireTrusted && untrusted > 0 then VerifyDevicesRequired else NoReason)
  {
    if lookup.Found? {
      FirstProblemNone(lookup.entries);
      forall i: nat | FirstBad(lookup.entries, i)
        ensures FirstProblem(lookup.entries)
                == if lookup.entries[i].trust == Compromised then CompromisedDevicePresent else MissingKeyCoverage
      {
        FirstProblemAt(lookup.entries, i);
      }
    }
  }

  ghost predicate HasBothProblems(entries: seq<Coverage>) {
    && (exists c :: c in entries && c.trust.Compromised?)
    && (exists c :: c in entries && !c.trust.Compromised? && !c.ready)
  }

  ghost predicate SameEntries(a: seq<Coverage>, b: seq<Coverage>) {
    forall c :: c in a <==> c in b
  }

  // The reason is independent of the order too, unless both kinds of bad entry are present.
  lemma ReasonForgetsOrder(a: seq<Coverage>, b: seq<Coverage>)
    requires SameEntries(a, b) && !HasBothProblems(a)
    ensures FirstProblem(a) == FirstProblem(b)
  {
    FirstProblemNone(a);
    FirstProblemNone(b);
  }

  function MovedToFront(entries: seq<Coverage>, i: nat): seq<Coverage>
    requires i < |entries|
  {
    [entries[i]] + entries[..i] + entries[i + 1..]
  }

  // With both kinds present two orders of the same entries give different reasons.
  lemma ReasonDependsOnOrder(entries: seq<Coverage>)
    requires HasBothProblems(entries)
    ensures exists i, j :: 0 <= i < |entries| && 0 <= j < |entries|
              && FirstProblem(MovedToFront(entries, i)) != FirstProblem(MovedToFront(entries, j))
  {
    var c :| c in entries && c.trust.Compromised?;
    var d :| d in entries && !d.trust.Compromised? && !d.ready;
    var i :| 0 <= i < |entries| && entries[i] == c;
    var j :| 0 <= j < |entries| && entries[j] == d;
    assert FirstProblem(MovedToFront(entries, i)) == CompromisedDevicePresent;
    assert FirstProblem(MovedToFront(entries, j)) == MissingKeyCoverage;
  }
}
