// conversationUpdateParamsFromRequest: a fold of update-mask paths over conversation settings.
module FieldMask {
  import opened Outcomes
  import opened Text

  datatype Field =
    | OnlyAdminsCanWrite | OnlyAdminsCanAddMembers | AllowReactions | AllowForwards | AllowThreads
    | RequireEncryptedMessages | RequireTrustedDevices | RequireJoinApproval | PinnedMessagesOnlyAdmins
    | SlowModeInterval

  datatype Value = Flag(on: bool) | Interval(nanoseconds: int)

  datatype Settings = Settings(
    onlyAdminsCanWrite: bool, onlyAdminsCanAddMembers: bool, allowReactions: bool, allowForwards: bool,
    allowThreads: bool, requireEncryptedMessages: bool, requireTrustedDevices: bool, requireJoinApproval: bool,
    pinnedMessagesOnlyAdmins: bool, slowModeInterval: int)

  const ZERO_SETTINGS := Settings(false, false, false, false, false, false, false, false, false, 0)

  function Get(s: Settings, f: Field): Value {
    match f
    case OnlyAdminsCanWrite => Flag(s.onlyAdminsCanWrite)
    case OnlyAdminsCanAddMembers => Flag(s.onlyAdminsCanAddMembers)
    case AllowReactions => Flag(s.allowReactions)
    case AllowForwards => Flag(s.allowForwards)
    case AllowThreads => Flag(s.allowThreads)
    case RequireEncryptedMessages => Flag(s.requireEncryptedMessages)
    case RequireTrustedDevices => Flag(s.requireTrustedDevices)
    case RequireJoinApproval => Flag(s.requireJoinApproval)
    case PinnedMessagesOnlyAdmins => Flag(s.pinnedMessagesOnlyAdmins)
    case SlowModeInterval => Interval(s.slowModeInterval)
  }

  datatype TrustPolicy = UnspecifiedPolicy | AllowUntrusted | TrustedOnly

  // The settings message of a request: the plain fields and the trust policy beside them.
  datatype Requested = Requested(fields: Settings, policy: TrustPolicy)

  // The trust flag once the policy has had its say.
  function ResolvedTrust(r: Requested): bool {
    match r.policy
    case AllowUntrusted => false
    case TrustedOnly => true
    case UnspecifiedPolicy => r.fields.requireTrustedDevices
  }

  // conversationSettingsFromProto.
  function FromProto(settings: Option<Requested>): Settings {
    match settings
    case None => ZERO_SETTINGS
    case Some(r) => r.fields.(requireTrustedDevices := ResolvedTrust(r))
  }

  datatype Path = Title | Description | AvatarMediaID | AllSettings | One(field: Field) | TrustPolicyPath | Unknown

  // The switch on strings.TrimSpace(path).
  function ParsePath(path: string): Path {
    PathNamed(TrimSpace(path))
  }

  function PathNamed(p: string): Path {
    if p in Paths() then Paths()[p] else Unknown
  }

  function Paths(): map<string, Path> {
    map[
      "title" := Title,
      "description" := Description,
      "avatar_media_id" := AvatarMediaID,
      "settings" := AllSettings,
      "settings.only_admins_can_write" := One(OnlyAdminsCanWrite),
      "settings.only_admins_can_add_members" := One(OnlyAdminsCanAddMembers),
      "settings.allow_reactions" := One(AllowReactions),
      "settings.allow_forwards" := One(AllowForwards),
      "settings.allow_threads" := One(AllowThreads),
      "settings.require_join_approval" := One(RequireJoinApproval),
      "settings.pinned_messages_only_admins" := One(PinnedMessagesOnlyAdmins),
      "settings.slow_mode_interval" := One(SlowModeInterval),
      "settings.require_encrypted_messages" := One(RequireEncryptedMessages),
      "settings.require_trusted_devices" := One(RequireTrustedDevices),
      "settings.e2ee_trust_policy" := TrustPolicyPath]
  }

  // The row of the request.
  datatype Row = Row(title: string, description: string, avatarMediaID: string, settings: Option<Requested>)

  // The parameters built so far; `settings` is meaningful once `settingsChanged` is set.
  datatype Params = Params(
    title: Option<string>, description: Option<string>, avatarMediaID: Option<string>,
    settings: Settings, settingsChanged: bool)

  function Start(base: Settings): Params {
    Params(None, None, None, base, false)
  }

  // The paths that error out.
  predicate Bad(row: Row, path: Path) {
    path.Unknown? || ((path.One? || path.TrustPolicyPath?) && row.settings.None?)
  }

  function Assign(s: Settings, f: Field, from: Settings): Settings {
    match f
    case OnlyAdminsCanWrite => s.(onlyAdminsCanWrite := from.onlyAdminsCanWrite)
    case OnlyAdminsCanAddMembers => s.(onlyAdminsCanAddMembers := from.onlyAdminsCanAddMembers)
    case AllowReactions => s.(allowReactions := from.allowReactions)
    case AllowForwards => s.(allowForwards := from.allowForwards)
    case AllowThreads => s.(allowThreads := from.allowThreads)
    case RequireEncryptedMessages => s.(requireEncryptedMessages := from.requireEncryptedMessages)
    case RequireTrustedDevices => s.(requireTrustedDevices := from.requireTrustedDevices)
    case RequireJoinApproval => s.(requireJoinApproval := from.requireJoinApproval)
    case PinnedMessagesOnlyAdmins => s.(pinnedMessagesOnlyAdmins := from.pinnedMessagesOnlyAdmins)
    case SlowModeInterval => s.(slowModeInterval := from.slowModeInterval)
  }

  // One turn of the loop.
  function Apply(row: Row, p: Params, path: Path): Params
    requires !Bad(row, path)
  {
    match path
    case Title => p.(title := Some(row.title))
    case Description => p.(description := Some(row.description))
    case AvatarMediaID => p.(avatarMediaID := Some(row.avatarMediaID))
    case AllSettings => p.(settings := FromProto(row.settings), settingsChanged := true)
    case One(f) => p.(settings := Assign(p.settings, f, row.settings.value.fields), settingsChanged := true)
    case TrustPolicyPath =>
      p.(settings := p.settings.(requireTrustedDevices := ResolvedTrust(row.settings.value)), settingsChanged := true)
  }

  const DEFAULT_PATHS := ["title", "description", "avatar_media_id", "settings"]

  function Parsed(paths: seq<string>): (r: seq<Path>)
    ensures |r| == |paths|
  {
    if paths == [] then [] else Parsed(paths[..|paths| - 1]) + [ParsePath(paths[|paths| - 1])]
  }

  // The fold over all paths, from the left.
  function Fold(row: Row, base: Settings, paths: seq<Path>): Option<Params> {
    if paths == [] then Some(Start(base)) else
    var last := paths[|paths| - 1];
    match Fold(row, base, paths[..|paths| - 1])
    case None => None
    case Some(p) => if Bad(row, last) then None else Some(Apply(row, p, last))
  }

  // The loop over the paths: stops at the first bad one.
  method FoldPaths(row: Row, base: Settings, paths: seq<Path>) returns (result: Option<Params>)
    ensures result == Fold(row, base, paths)
  {
    var p := Start(base);
    for i := 0 to |paths|
      invariant Fold(row, base, paths[..i]) == Some(p)
    {
      assert paths[..i + 1][..i] == paths[..i];
      if Bad(row, paths[i]) {
        BadPathFails(row, base, paths, i);
        return None;
      }
      p := Apply(row, p, paths[i]);
    }
    assert paths[..|paths|] == paths;
    return Some(p);
  }

  method UpdateParams(request: Option<Row>, maskPaths: seq<string>, base: Settings) returns (result: Option<Params>)
    ensures request.None? ==> result == None
    ensures request.Some? ==>
              result == Fold(request.value, base, Parsed(if maskPaths == [] then DEFAULT_PATHS else maskPaths))
  {
    if request.None? {
      return None;
    }
    var paths := Parsed(if maskPaths == [] then DEFAULT_PATHS else maskPaths);
    result := FoldPaths(request.value, base, paths);
  }

  lemma {:induction false} BadPathFails(row: Row, base: Settings, paths: seq<Path>, i: nat)
    requires i < |paths| && Bad(row, paths[i])
    ensures Fold(row, base, paths) == None
    decreases |paths|
  {
    if i < |paths| - 1 {
      BadPathFails(row, base, paths[..|paths| - 1], i);
    }
  }

  // --- what the fold computes ---

  // The update is refused exactly when some path is unknown, or names a single setting
  // while the request carries no settings.
  lemma {:induction false} FoldFails(row: Row, base: Settings, paths: seq<Path>)
    ensures Fold(row, base, paths) == None <==> exists i :: 0 <= i < |paths| && Bad(row, paths[i])
    decreases |paths|
  {
    if paths != [] {
      var n := |paths| - 1;
      FoldFails(row, base, paths[..n]);
      if exists i :: 0 <= i < n && Bad(row, paths[..n][i]) {
        var i :| 0 <= i < n && Bad(row, paths[..n][i]);
        assert Bad(row, paths[i]);
      }
      if Fold(row, base, paths[..n]).Some? && !Bad(row, paths[n]) {
        forall i | 0 <= i < |paths|
          ensures !Bad(row, paths[i])
        {
          if i < n {
            assert paths[..n][i] == paths[i];
          }
        }
      }
    }
  }

  // The paths that write a field.
  predicate Covers(path: Path, f: Field) {
    path.AllSettings? || path == One(f) || (path.TrustPolicyPath? && f.RequireTrustedDevices?)
  }

  lemma AssignSame(s: Settings, f: Field, from: Settings)
    ensures Get(Assign(s, f, from), f) == Get(from, f)
  {
    match f {
      case OnlyAdminsCanWrite =>
      case OnlyAdminsCanAddMembers =>
      case AllowReactions =>
      case AllowForwards =>
      case AllowThreads =>
      case RequireEncryptedMessages =>
      case RequireTrustedDevices =>
      case RequireJoinApproval =>
      case PinnedMessagesOnlyAdmins =>
      case SlowModeInterval =>
    }
  }

  lemma AssignOther(s: Settings, f: Field, from: Settings, g: Field)
    requires f != g
    ensures Get(Assign(s, f, from), g) == Get(s, g)
  {
    match g {
      case OnlyAdminsCanWrite =>
      case OnlyAdminsCanAddMembers =>
      case AllowReactions =>
      case AllowForwards =>
      case AllowThreads =>
      case RequireEncryptedMessages =>
      case RequireTrustedDevices =>
      case RequireJoinApproval =>
      case PinnedMessagesOnlyAdmins =>
      case SlowModeInterval =>
    }
  }

  // The trust policy touches no other field.
  lemma PolicyOnlyTrust(s: Settings, trust: bool, f: Field)
    requires !f.RequireTrustedDevices?
    ensures Get(s.(requireTrustedDevices := trust), f) == Get(s, f)
  {
  }

  lemma ApplyField(row: Row, p: Params, path: Path, f: Field)
    requires !Bad(row, path) && !f.RequireTrustedDevices?
    ensures Get(Apply(row, p, path).settings, f)
            == if Covers(path, f) then Get(FromProto(row.settings), f) else Get(p.settings, f)
  {
    if path.One? {
      var from := row.settings.value.fields;
      PolicyOnlyTrust(from, ResolvedTrust(row.settings.value), f);
      if path.field == f {
        AssignSame(p.settings, f, from);
      } else {
        AssignOther(p.settings, path.field, from, f);
      }
    } else if path.TrustPolicyPath? {
      PolicyOnlyTrust(p.settings, ResolvedTrust(row.settings.value), f);
    }
  }

  lemma ApplyTrust(row: Row, p: Params, path: Path)
    requires !Bad(row, path)
    ensures Apply(row, p, path).settings.requireTrustedDevices
            == if Covers(path, RequireTrustedDevices) then TrustWritten(row, path) else p.settings.requireTrustedDevices
  {
    if path.One? && !path.field.RequireTrustedDevices? {
      AssignOther(p.settings, path.field, row.settings.value.fields, RequireTrustedDevices);
    }
  }

  // Every field but the trust flag: the requested value if some path covers it, else untouched.
  lemma {:induction false} FieldOutcome(row: Row, base: Settings, paths: seq<Path>, f: Field)
    requires Fold(row, base, paths).Some? && !f.RequireTrustedDevices?
    ensures Get(Fold(row, base, paths).value.settings, f) ==
              if exists path :: path in paths && Covers(path, f) then Get(FromProto(row.settings), f) else Get(base, f)
    decreases |paths|
  {
    if paths != [] {
      var front, last := paths[..|paths| - 1], paths[|paths| - 1];
      assert paths == front + [last];
      FieldOutcome(row, base, front, f);
      ApplyField(row, Fold(row, base, front).value, last, f);
      assert last in paths;
      if exists path :: path in front && Covers(path, f) {
        var path :| path in front && Covers(path, f);
        assert path in paths;
      }
    }
  }

  // What a path leaves in the trust flag.
  function TrustWritten(row: Row, path: Path): bool
    requires !Bad(row, path) && Covers(path, RequireTrustedDevices)
  {
    if path == One(RequireTrustedDevices) then row.settings.value.fields.requireTrustedDevices
    else FromProto(row.settings).requireTrustedDevices
  }

  // Index of the last path that writes the trust flag, or -1.
  function LastTrustPath(paths: seq<Path>): (i: int)
    ensures -1 <= i < |paths|
    ensures i >= 0 ==> Covers(paths[i], RequireTrustedDevices)
  {
    if paths == [] then -1
    else if Covers(paths[|paths| - 1], RequireTrustedDevices) then |paths| - 1
    else LastTrustPath(paths[..|paths| - 1])
  }

  lemma {:induction false} LastTrustPathIsLast(paths: seq<Path>, k: nat)
    requires LastTrustPath(paths) < k < |paths|
    ensures !Covers(paths[k], RequireTrustedDevices)
    decreases |paths|
  {
    if k < |paths| - 1 {
      LastTrustPathIsLast(paths[..|paths| - 1], k);
    }
  }

  lemma {:induction false} NoBadPath(row: Row, base: Settings, paths: seq<Path>, i: nat)
    requires Fold(row, base, paths).Some? && i < |paths|
    ensures !Bad(row, paths[i])
  {
    FoldFails(row, base, paths);
  }

  // The trust flag is decided by the last path that covers it.
  lemma {:induction false} TrustOutcome(row: Row, base: Settings, paths: seq<Path>)
    requires Fold(row, base, paths).Some?
    ensures LastTrustPath(paths) >= 0 ==> !Bad(row, paths[LastTrustPath(paths)])
    ensures Fold(row, base, paths).value.settings.requireTrustedDevices ==
              if LastTrustPath(paths) >= 0 then TrustWritten(row, paths[LastTrustPath(paths)])
              else base.requireTrustedDevices
    decreases |paths|
  {
    if paths != [] {
      var front, last := paths[..|paths| - 1], paths[|paths| - 1];
      TrustOutcome(row, base, front);
      ApplyTrust(row, Fold(row, base, front).value, last);
    }
  }

  // The other outputs: set exactly when their path occurs.
  lemma {:induction false} OtherOutcomes(row: Row, base: Settings, paths: seq<Path>)
    requires Fold(row, base, paths).Some?
    ensures var p := Fold(row, base, paths).value;
            && p.title == (if Title in paths then Some(row.title) else None)
            && p.description == (if Description in paths then Some(row.description) else None)
            && p.avatarMediaID == (if AvatarMediaID in paths then Some(row.avatarMediaID) else None)
            && (p.settingsChanged <==> exists f, path :: path in paths && Covers(path, f))
    decreases |paths|
  {
    if paths != [] {
      var front, last := paths[..|paths| - 1], paths[|paths| - 1];
      assert paths == front + [last];
      OtherOutcomes(row, base, front);
      assert last.AllSettings? ==> Covers(last, AllowThreads);
      assert last.One? ==> Covers(last, last.field);
      assert last.TrustPolicyPath? ==> Covers(last, RequireTrustedDevices);
      assert last in paths;
      if exists f, path :: path in front && Covers(path, f) {
        var f, path :| path in front && Covers(path, f);
        assert path in paths;
      }
    }
  }

  ghost predicate SamePaths(a: seq<Path>, b: seq<Path>) {
    forall path :: path in a <==> path in b
  }

  lemma SettingsByFields(s: Settings, t: Settings)
    requires forall f :: Get(s, f) == Get(t, f)
    ensures s == t
  {
    assert Get(s, OnlyAdminsCanWrite) == Get(t, OnlyAdminsCanWrite);
    assert Get(s, OnlyAdminsCanAddMembers) == Get(t, OnlyAdminsCanAddMembers);
    assert Get(s, AllowReactions) == Get(t, AllowReactions);
    assert Get(s, AllowForwards) == Get(t, AllowForwards);
    assert Get(s, AllowThreads) == Get(t, AllowThreads);
    assert Get(s, RequireEncryptedMessages) == Get(t, RequireEncryptedMessages);
    assert Get(s, RequireTrustedDevices) == Get(t, RequireTrustedDevices);
    assert Get(s, RequireJoinApproval) == Get(t, RequireJoinApproval);
    assert Get(s, PinnedMessagesOnlyAdmins) == Get(t, PinnedMessagesOnlyAdmins);
    assert Get(s, SlowModeInterval) == Get(t, SlowModeInterval);
  }

  lemma SameFailure(row: Row, base: Settings, a: seq<Path>, b: seq<Path>)
    requires SamePaths(a, b) && Fold(row, base, a).Some?
    ensures Fold(row, base, b).Some?
  {
    FoldFails(row, base, b);
    if Fold(row, base, b).None? {
      var i :| 0 <= i < |b| && Bad(row, b[i]);
      assert b[i] in a;
      var j :| 0 <= j < |a| && a[j] == b[i];
      NoBadPath(row, base, a, j);
    }
  }

  lemma SameField(row: Row, base: Settings, a: seq<Path>, b: seq<Path>, f: Field)
    requires SamePaths(a, b) && Fold(row, base, a).Some? && Fold(row, base, b).Some? && !f.RequireTrustedDevices?
    ensures Get(Fold(row, base, a).value.settings, f) == Get(Fold(row, base, b).value.settings, f)
  {
    FieldOutcome(row, base, a, f);
    FieldOutcome(row, base, b, f);
  }

  lemma {:induction false} SameSettings(row: Row, base: Settings, a: seq<Path>, b: seq<Path>)
    requires SamePaths(a, b) && Fold(row, base, a).Some? && Fold(row, base, b).Some?
    ensures var pa, pb := Fold(row, base, a).value.settings, Fold(row, base, b).value.settings;
            pa == pb.(requireTrustedDevices := pa.requireTrustedDevices)
  {
    var pa, pb := Fold(row, base, a).value.settings, Fold(row, base, b).value.settings;
    var s := pb.(requireTrustedDevices := pa.requireTrustedDevices);
    forall f
      ensures Get(pa, f) == Get(s, f)
    {
      if !f.RequireTrustedDevices? {
        SameField(row, base, a, b, f);
        PolicyOnlyTrust(pb, pa.requireTrustedDevices, f);
      }
    }
    SettingsByFields(pa, s);
  }

  lemma {:induction false} SameOthers(row: Row, base: Settings, a: seq<Path>, b: seq<Path>)
    requires SamePaths(a, b) && Fold(row, base, a).Some? && Fold(row, base, b).Some?
    ensures var pa, pb := Fold(row, base, a).value, Fold(row, base, b).value;
            && pa.title == pb.title && pa.description == pb.description && pa.avatarMediaID == pb.avatarMediaID
            && pa.settingsChanged == pb.settingsChanged
  {
    OtherOutcomes(row, base, a);
    OtherOutcomes(row, base, b);
    assert (exists f, path :: path in a && Covers(path, f)) <==> (exists f, path :: path in b && Covers(path, f));
  }

  // Permuting or repeating paths changes nothing but possibly the trust flag.
  lemma {:induction false} OrderMattersOnlyForTrust(row: Row, base: Settings, a: seq<Path>, b: seq<Path>)
    requires SamePaths(a, b) && Fold(row, base, a).Some?
    ensures Fold(row, base, b).Some?
    ensures var pa, pb := Fold(row, base, a).value, Fold(row, base, b).value;
            pa == pb.(settings := pb.settings.(requireTrustedDevices := pa.settings.requireTrustedDevices))
  {
    SameFailure(row, base, a, b);
    SameOthers(row, base, a, b);
    SameSettings(row, base, a, b);
  }

  // Whether some order of these paths would give another trust flag.
  predicate TrustDependsOnOrder(row: Row, paths: seq<Path>) {
    && One(RequireTrustedDevices) in paths
    && (AllSettings in paths || TrustPolicyPath in paths)
    && row.settings.Some?
    && row.settings.value.fields.requireTrustedDevices != ResolvedTrust(row.settings.value)
  }

  // Unless the policy contradicts the flag and both are written, the whole result is
  // independent of order and repetition.
  lemma OrderDoesNotMatter(row: Row, base: Settings, a: seq<Path>, b: seq<Path>)
    requires SamePaths(a, b) && Fold(row, base, a).Some? && !TrustDependsOnOrder(row, a)
    ensures Fold(row, base, a) == Fold(row, base, b)
  {
    OrderMattersOnlyForTrust(row, base, a, b);
    TrustOutcome(row, base, a);
    TrustOutcome(row, base, b);
    var i, j := LastTrustPath(a), LastTrustPath(b);
    if i >= 0 {
      var x := a[i];
      assert x in a && x in b;
      CoveringPathFound(b, x);
      var y := b[j];
      assert y in b && y in a;
      NoBadPath(row, base, a, i);
    } else if j >= 0 {
      var y := b[j];
      assert y in b && y in a;
      CoveringPathFound(a, y);
    }
  }

  lemma CoveringPathFound(paths: seq<Path>, path: Path)
    requires path in paths && Covers(path, RequireTrustedDevices)
    ensures LastTrustPath(paths) >= 0
  {
    var k :| 0 <= k < |paths| && paths[k] == path;
    if LastTrustPath(paths) < 0 {
      LastTrustPathIsLast(paths, k);
    }
  }

  // One more path, from a fold that has not failed.
  lemma {:induction false} FoldSnoc(row: Row, base: Settings, paths: seq<Path>, path: Path)
    requires Fold(row, base, paths).Some? && !Bad(row, path)
    ensures Fold(row, base, paths + [path]) == Some(Apply(row, Fold(row, base, paths).value, path))
  {
    assert (paths + [path])[..|paths|] == paths;
  }

  // And when it does, moving the flag's path or a policy path to the end gives two results.
  lemma {:induction false} OrderMatters(row: Row, base: Settings, paths: seq<Path>)
    requires Fold(row, base, paths).Some? && TrustDependsOnOrder(row, paths)
    ensures exists other :: other in paths
              && Fold(row, base, paths + [One(RequireTrustedDevices)]) != Fold(row, base, paths + [other])
  {
    var other := if AllSettings in paths then AllSettings else TrustPolicyPath;
    var flag := One(RequireTrustedDevices);
    var p := Fold(row, base, paths).value;
    FoldSnoc(row, base, paths, flag);
    FoldSnoc(row, base, paths, other);
    ApplyTrust(row, p, flag);
    ApplyTrust(row, p, other);
    assert other in paths;
  }

  // --- the same, from the strings of the mask and the fields of the request ---

  // The string that names a path.
  function NameOf(path: Path): string
    requires !path.Unknown?
  {
    match path
    case Title => "title"
    case Description => "description"
    case AvatarMediaID => "avatar_media_id"
    case AllSettings => "settings"
    case TrustPolicyPath => "settings.e2ee_trust_policy"
    case One(f) =>
      match f
      case OnlyAdminsCanWrite => "settings.only_admins_can_write"
      case OnlyAdminsCanAddMembers => "settings.only_admins_can_add_members"
      case AllowReactions => "settings.allow_reactions"
      case AllowForwards => "settings.allow_forwards"
      case AllowThreads => "settings.allow_threads"
      case RequireEncryptedMessages => "settings.require_encrypted_messages"
      case RequireTrustedDevices => "settings.require_trusted_devices"
      case RequireJoinApproval => "settings.require_join_approval"
      case PinnedMessagesOnlyAdmins => "settings.pinned_messages_only_admins"
      case SlowModeInterval => "settings.slow_mode_interval"
  }

  lemma {:induction false} NameOfPath(p: string)
    requires p in Paths()
    ensures Paths()[p] != Unknown && NameOf(Paths()[p]) == p
  {
  }

  lemma {:induction false} PathsHas(path: Path)
    requires !path.Unknown?
    ensures NameOf(path) in Paths() && Paths()[NameOf(path)] == path
  {
    var a, b := "settings.only_admins_can_write", "settings.require_join_approval";
    assert a[9] != b[9];
    var c, d := "settings.only_admins_can_add_members", "settings.pinned_messages_only_admins";
    assert c[9] != d[9];
    if path.One? {
      match path.field {
        case OnlyAdminsCanWrite =>
        case OnlyAdminsCanAddMembers =>
        case AllowReactions =>
        case AllowForwards =>
        case AllowThreads =>
        case RequireEncryptedMessages =>
        case RequireTrustedDevices =>
        case RequireJoinApproval =>
        case PinnedMessagesOnlyAdmins =>
        case SlowModeInterval =>
      }
    }
  }

  lemma {:induction false} PathOfName(p: string, path: Path)
    requires !path.Unknown?
    ensures PathNamed(p) == path <==> p == NameOf(path)
  {
    if PathNamed(p) == path {
      NameOfPath(p);
    }
    PathsHas(path);
  }

  // What the mask names, without the blanks around it.
  function Named(mask: seq<string>): set<string> {
    set i | 0 <= i < |mask| :: TrimSpace(mask[i])
  }

  lemma {:induction false} ParsedAt(mask: seq<string>, i: nat)
    requires i < |mask|
    ensures Parsed(mask)[i] == ParsePath(mask[i])
    decreases |mask|
  {
    if i < |mask| - 1 {
      ParsedAt(mask[..|mask| - 1], i);
    }
  }

  lemma {:induction false} NamedIff(mask: seq<string>, path: Path, name: string)
    requires !path.Unknown? && name == NameOf(path)
    ensures path in Parsed(mask) <==> name in Named(mask)
  {
    if path in Parsed(mask) {
      var i :| 0 <= i < |mask| && Parsed(mask)[i] == path;
      ParsedAt(mask, i);
      PathOfName(TrimSpace(mask[i]), path);
    }
    if name in Named(mask) {
      var i :| 0 <= i < |mask| && TrimSpace(mask[i]) == name;
      ParsedAt(mask, i);
      PathOfName(TrimSpace(mask[i]), path);
      assert Parsed(mask)[i] == path;
    }
  }

  // The settings a request carries, all off when it carries none.
  function Wished(row: Row): Settings {
    match row.settings
    case None => Settings(false, false, false, false, false, false, false, false, false, 0)
    case Some(r) => r.fields
  }

  // A setting other than the trust flag is what the request says when the mask names it, or all
  // settings at once, and otherwise what it was.
  lemma {:induction false} MaskField(row: Row, base: Settings, mask: seq<string>, f: Field, name: string)
    requires Fold(row, base, Parsed(mask)).Some? && !f.RequireTrustedDevices? && name == NameOf(One(f))
    ensures Get(Fold(row, base, Parsed(mask)).value.settings, f)
            == if "settings" in Named(mask) || name in Named(mask) then Get(Wished(row), f) else Get(base, f)
  {
    FieldOutcome(row, base, Parsed(mask), f);
    NamedIff(mask, AllSettings, "settings");
    NamedIff(mask, One(f), name);
    if row.settings.Some? {
      PolicyOnlyTrust(row.settings.value.fields, ResolvedTrust(row.settings.value), f);
    }
    if AllSettings in Parsed(mask) {
      assert Covers(AllSettings, f);
    }
    if One(f) in Parsed(mask) {
      assert Covers(One(f), f);
    }
  }

  // Of an update that is not refused: who may do what.
  lemma {:induction false} MaskAdmins(row: Row, base: Settings, mask: seq<string>)
    requires Fold(row, base, Parsed(mask)).Some?
    ensures var s, wish, all := Fold(row, base, Parsed(mask)).value.settings, Wished(row), "settings" in Named(mask);
            && s.onlyAdminsCanWrite == (if all || "settings.only_admins_can_write" in Named(mask)
                                        then wish.onlyAdminsCanWrite else base.onlyAdminsCanWrite)
            && s.onlyAdminsCanAddMembers == (if all || "settings.only_admins_can_add_members" in Named(mask)
                                             then wish.onlyAdminsCanAddMembers else base.onlyAdminsCanAddMembers)
  {
    MaskField(row, base, mask, OnlyAdminsCanWrite, "settings.only_admins_can_write");
    MaskField(row, base, mask, OnlyAdminsCanAddMembers, "settings.only_admins_can_add_members");
  }

  // What is allowed.
  lemma {:induction false} MaskAllowed(row: Row, base: Settings, mask: seq<string>)
    requires Fold(row, base, Parsed(mask)).Some?
    ensures var s, wish, all := Fold(row, base, Parsed(mask)).value.settings, Wished(row), "settings" in Named(mask);
            && s.allowReactions == (if all || "settings.allow_reactions" in Named(mask)
                                    then wish.allowReactions else base.allowReactions)
            && s.allowForwards == (if all || "settings.allow_forwards" in Named(mask)
                                   then wish.allowForwards else base.allowForwards)
            && s.allowThreads == (if all || "settings.allow_threads" in Named(mask)
                                  then wish.allowThreads else base.allowThreads)
  {
    MaskField(row, base, mask, AllowReactions, "settings.allow_reactions");
    MaskField(row, base, mask, AllowForwards, "settings.allow_forwards");
    MaskField(row, base, mask, AllowThreads, "settings.allow_threads");
  }

  // What is asked for.
  lemma {:induction false} MaskRequired(row: Row, base: Settings, mask: seq<string>)
    requires Fold(row, base, Parsed(mask)).Some?
    ensures var s, wish, all := Fold(row, base, Parsed(mask)).value.settings, Wished(row), "settings" in Named(mask);
            && s.requireEncryptedMessages == (if all || "settings.require_encrypted_messages" in Named(mask)
                                              then wish.requireEncryptedMessages else base.requireEncryptedMessages)
            && s.requireJoinApproval == (if all || "settings.require_join_approval" in Named(mask)
                                         then wish.requireJoinApproval else base.requireJoinApproval)
  {
    MaskField(row, base, mask, RequireEncryptedMessages, "settings.require_encrypted_messages");
    MaskField(row, base, mask, RequireJoinApproval, "settings.require_join_approval");
  }

  // Pinning and slow mode.
  lemma {:induction false} MaskModes(row: Row, base: Settings, mask: seq<string>)
    requires Fold(row, base, Parsed(mask)).Some?
    ensures var s, wish, all := Fold(row, base, Parsed(mask)).value.settings, Wished(row), "settings" in Named(mask);
            && s.pinnedMessagesOnlyAdmins == (if all || "settings.pinned_messages_only_admins" in Named(mask)
                                              then wish.pinnedMessagesOnlyAdmins else base.pinnedMessagesOnlyAdmins)
            && s.slowModeInterval == (if all || "settings.slow_mode_interval" in Named(mask)
                                      then wish.slowModeInterval else base.slowModeInterval)
  {
    MaskField(row, base, mask, PinnedMessagesOnlyAdmins, "settings.pinned_messages_only_admins");
    MaskField(row, base, mask, SlowModeInterval, "settings.slow_mode_interval");
  }

  // The outputs beside the settings are set exactly when the mask names them.
  lemma {:induction false} MaskTexts(row: Row, base: Settings, mask: seq<string>)
    requires Fold(row, base, Parsed(mask)).Some?
    ensures var p := Fold(row, base, Parsed(mask)).value;
            && p.title == (if "title" in Named(mask) then Some(row.title) else None)
            && p.description == (if "description" in Named(mask) then Some(row.description) else None)
            && p.avatarMediaID == (if "avatar_media_id" in Named(mask) then Some(row.avatarMediaID) else None)
  {
    OtherOutcomes(row, base, Parsed(mask));
    NamedIff(mask, Title, "title");
    NamedIff(mask, Description, "description");
    NamedIff(mask, AvatarMediaID, "avatar_media_id");
  }

  // The three names that write the trust flag.
  predicate NamesTrust(name: string) {
    name == "settings" || name == "settings.require_trusted_devices" || name == "settings.e2ee_trust_policy"
  }

  lemma {:induction false} CoversTrustIff(raw: string)
    ensures Covers(ParsePath(raw), RequireTrustedDevices) <==> NamesTrust(TrimSpace(raw))
  {
    var p := TrimSpace(raw);
    PathOfName(p, AllSettings);
    PathOfName(p, One(RequireTrustedDevices));
    PathOfName(p, TrustPolicyPath);
  }

  // The flag itself when it is named alone; else the policy, and the flag under no policy.
  function TrustWish(row: Row, name: string): bool {
    match row.settings
    case None => false
    case Some(r) =>
      if name == "settings.require_trusted_devices" || r.policy == UnspecifiedPolicy then r.fields.requireTrustedDevices
      else r.policy == TrustedOnly
  }

  lemma {:induction false} WrittenIsWished(row: Row, raw: string)
    requires NamesTrust(TrimSpace(raw)) && !Bad(row, ParsePath(raw)) && Covers(ParsePath(raw), RequireTrustedDevices)
    ensures TrustWritten(row, ParsePath(raw)) == TrustWish(row, TrimSpace(raw))
  {
    PathOfName(TrimSpace(raw), One(RequireTrustedDevices));
  }

  lemma {:induction false} LastTrustNamed(mask: seq<string>, i: nat)
    requires i < |mask| && NamesTrust(TrimSpace(mask[i]))
    requires forall k :: i < k < |mask| ==> !NamesTrust(TrimSpace(mask[k]))
    ensures LastTrustPath(Parsed(mask)) == i
  {
    var last := LastTrustPath(Parsed(mask));
    ParsedAt(mask, i);
    CoversTrustIff(mask[i]);
    if last < i {
      LastTrustPathIsLast(Parsed(mask), i);
    } else {
      ParsedAt(mask, last);
      CoversTrustIff(mask[last]);
    }
  }

  // The last of the names that write the trust flag decides it.
  lemma {:induction false} MaskTrust(row: Row, base: Settings, mask: seq<string>, i: nat)
    requires Fold(row, base, Parsed(mask)).Some?
    requires i < |mask| && NamesTrust(TrimSpace(mask[i]))
    requires forall k :: i < k < |mask| ==> !NamesTrust(TrimSpace(mask[k]))
    ensures Fold(row, base, Parsed(mask)).value.settings.requireTrustedDevices == TrustWish(row, TrimSpace(mask[i]))
  {
    LastTrustNamed(mask, i);
    ParsedAt(mask, i);
    TrustOutcome(row, base, Parsed(mask));
    WrittenIsWished(row, mask[i]);
  }

  lemma {:induction false} MaskKeepsTrust(row: Row, base: Settings, mask: seq<string>)
    requires Fold(row, base, Parsed(mask)).Some?
    requires forall k :: 0 <= k < |mask| ==> !NamesTrust(TrimSpace(mask[k]))
    ensures Fold(row, base, Parsed(mask)).value.settings.requireTrustedDevices == base.requireTrustedDevices
  {
    var last := LastTrustPath(Parsed(mask));
    TrustOutcome(row, base, Parsed(mask));
    if last >= 0 {
      ParsedAt(mask, last);
      CoversTrustIff(mask[last]);
    }
  }

  // One of the fifteen names; the ones of single settings ask for settings in the request.
  ghost predicate Answerable(row: Row, name: string) {
    || name == "title" || name == "description" || name == "avatar_media_id" || name == "settings"
    || (row.settings.Some? && exists f: Field :: name == NameOf(One(f)))
    || (row.settings.Some? && name == "settings.e2ee_trust_policy")
  }

  lemma {:induction false} BadIff(row: Row, p: string)
    ensures Bad(row, PathNamed(p)) <==> !Answerable(row, p)
  {
    var path := PathNamed(p);
    PathOfName(p, Title);
    PathOfName(p, Description);
    PathOfName(p, AvatarMediaID);
    PathOfName(p, AllSettings);
    PathOfName(p, TrustPolicyPath);
    forall f: Field
      ensures path == One(f) <==> p == NameOf(One(f))
    {
      PathOfName(p, One(f));
    }
  }

  // An update is refused exactly when the mask holds a name the request cannot answer.
  lemma {:induction false} MaskRefused(row: Row, base: Settings, mask: seq<string>)
    ensures Fold(row, base, Parsed(mask)) == None
            <==> exists i :: 0 <= i < |mask| && !Answerable(row, TrimSpace(mask[i]))
  {
    var paths := Parsed(mask);
    FoldFails(row, base, paths);
    forall i | 0 <= i < |mask|
      ensures Bad(row, paths[i]) <==> !Answerable(row, TrimSpace(mask[i]))
    {
      ParsedAt(mask, i);
      BadIff(row, TrimSpace(mask[i]));
    }
  }

  lemma {:induction false} ParseName(p: string, path: Path)
    requires !path.Unknown? && p == NameOf(path) && Trimmed(p)
    ensures ParsePath(p) == path
  {
    TrimmedIffFixed(p);
    PathOfName(p, path);
  }

  lemma {:induction false} ParsedFour(mask: seq<string>, a: Path, b: Path, c: Path, d: Path)
    requires |mask| == 4 && ParsePath(mask[0]) == a && ParsePath(mask[1]) == b && ParsePath(mask[2]) == c && ParsePath(mask[3]) == d
    ensures Parsed(mask) == [a, b, c, d]
  {
    ParsedAt(mask, 0);
    ParsedAt(mask, 1);
    ParsedAt(mask, 2);
    ParsedAt(mask, 3);
  }

  lemma {:induction false} FoldFour(row: Row, base: Settings)
    ensures Fold(row, base, [Title, Description, AvatarMediaID, AllSettings])
            == Some(Params(Some(row.title), Some(row.description), Some(row.avatarMediaID), FromProto(row.settings), true))
  {
    var one, two, three := [Title], [Title, Description], [Title, Description, AvatarMediaID];
    FoldSnoc(row, base, [], Title);
    assert [] + [Title] == one;
    FoldSnoc(row, base, one, Description);
    assert one + [Description] == two;
    FoldSnoc(row, base, two, AvatarMediaID);
    assert two + [AvatarMediaID] == three;
    FoldSnoc(row, base, three, AllSettings);
    assert three + [AllSettings] == [Title, Description, AvatarMediaID, AllSettings];
  }

  // Without a mask everything the request holds is taken over.
  lemma {:induction false} NoMask(row: Row, base: Settings, mask: seq<string>)
    requires mask == DEFAULT_PATHS
    ensures Fold(row, base, Parsed(mask))
            == Some(Params(Some(row.title), Some(row.description), Some(row.avatarMediaID),
                           Wished(row).(requireTrustedDevices := TrustWish(row, "settings")), true))
  {
    ParseName(mask[0], Title);
    ParseName(mask[1], Description);
    ParseName(mask[2], AvatarMediaID);
    ParseName(mask[3], AllSettings);
    ParsedFour(mask, Title, Description, AvatarMediaID, AllSettings);
    FoldFour(row, base);
  }
}
