/** A named, shareable audio profile. Who may see a preset is the one
    non-trivial rule of the system: an administrator, the creator, or anyone
    when the preset is public. Only administrators may publish a preset. */
module Presets {
  import opened Common
  import opened AudioProfiles

  const KeyPrefix: string := "PRESET#"
  const SortKey: string := "PRESET"
  const EntityType: string := "Preset"
  const NameLimit: nat := 50
  /** A preset used more often than this is reported as popular. */
  const PopularAbove: int := 10

  /** The fields of a Preset object, which are also its stored item. */
  datatype PresetRecord = PresetRecord(
    pk: string,
    sk: string,
    presetId: string,
    name: string,
    category: string,
    profile: Profile,
    createdBy: string,
    creatorRole: string,
    isPublic: bool,
    description: string,
    usageCount: int,
    createdAt: string,
    updatedAt: string)

  /** The plain object the constructor is given, or an item read back from
      the table; `None` is an absent or null attribute. `deviceId` is an
      attribute some stored items carry and that the constructor ignores. */
  datatype PresetData = PresetData(
    pk: Option<string>,
    sk: Option<string>,
    presetId: Option<string>,
    name: Option<string>,
    category: Option<string>,
    profile: Option<ProfileData>,
    createdBy: Option<string>,
    creatorRole: Option<string>,
    isPublic: Option<bool>,
    description: Option<string>,
    usageCount: Option<int>,
    createdAt: Option<string>,
    updatedAt: Option<string>,
    deviceId: Option<string>)

  /** The closed set of roles a creator may have. */
  predicate KnownRole(role: string) {
    role == Admin || role == StandardUser
  }

  /** What every object built from an item it wrote itself looks like. */
  predicate PresetHydrated(r: PresetRecord) {
    && r.pk != "" && r.sk != "" && r.presetId != "" && r.creatorRole != ""
    && r.createdAt != "" && r.updatedAt != "" && Hydrated(r.profile)
  }

  // ---------------------------------------------------------------------
  // Construction and stored form
  // ---------------------------------------------------------------------

  /** `new Preset(data)`, with `now` the current time and `freshId` the uuid
      the constructor would draw. The key is built from the id, or the id
      recovered from the key; a missing `is_public` means public. */
  function NewPreset(data: PresetData, now: string, freshId: string): (r: PresetRecord)
    ensures Present(data.presetId) ==> r.presetId == data.presetId.value
    ensures !Present(data.pk) ==> r.pk == KeyPrefix + r.presetId
    ensures !Present(data.pk) && !Present(data.presetId) ==> r.presetId == freshId
    ensures r.isPublic <==> data.isPublic != Some(false)
    ensures !Present(data.creatorRole) ==> r.creatorRole == StandardUser
    ensures r.usageCount == data.usageCount.GetOr(0)
    ensures data.profile.None? ==> r.profile == CreateDefault(now)
    ensures now != "" && freshId != "" && !Present(data.pk) ==> PresetHydrated(r)
  {
    var pk := OrElse(data.pk, KeyPrefix + OrElse(data.presetId, freshId));
    var presetId := OrElse(data.presetId, ReplaceFirst(pk, KeyPrefix, ""));
    StripPrefix(KeyPrefix, freshId);
    PresetRecord(
      pk,
      OrElse(data.sk, SortKey),
      presetId,
      OrElse(data.name, ""),
      OrElse(data.category, ""),
      if data.profile.Some? then FromDynamo(data.profile.value, now) else CreateDefault(now),
      OrElse(data.createdBy, ""),
      OrElse(data.creatorRole, StandardUser),
      data.isPublic.GetOr(true),
      OrElse(data.description, ""),
      OrElseInt(data.usageCount, 0),
      OrElse(data.createdAt, now),
      OrElse(data.updatedAt, now))
  }

  /** A non-empty category given to the constructor is the preset's
      category, and touches nothing else. */
  lemma NewPresetCategory(data: PresetData, c: string, now: string, freshId: string)
    requires c != ""
    ensures NewPreset(data.(category := Some(c)), now, freshId) == NewPreset(data, now, freshId).(category := c)
  {
  }

  /** `toDynamoItem()`: every field, the profile in its stored form. */
  function ToItem(r: PresetRecord): PresetData {
    PresetData(Some(r.pk), Some(r.sk), Some(r.presetId), Some(r.name), Some(r.category),
               Some(ToDynamo(r.profile)), Some(r.createdBy), Some(r.creatorRole), Some(r.isPublic),
               Some(r.description), Some(r.usageCount), Some(r.createdAt), Some(r.updatedAt), None)
  }

  /** `Preset.fromDynamoItem(item)`: the constructor over the item's
      attributes (any `device_id` is dropped). */
  function FromItem(item: PresetData, now: string, freshId: string): PresetRecord {
    NewPreset(item.(deviceId := None), now, freshId)
  }

  /** Reading back a stored preset reproduces it, whatever the clock and the
      uuid source say at that time. */
  lemma RoundTrip(r: PresetRecord, now: string, freshId: string)
    requires PresetHydrated(r)
    ensures FromItem(ToItem(r), now, freshId) == r
  {
    AudioProfiles.RoundTrip(r.profile, now);
  }

  // ---------------------------------------------------------------------
  // Validation
  // ---------------------------------------------------------------------

  /** The validation errors, in the order `validate` reports them; the
      profile's own errors are spliced in where the profile is checked. */
  datatype PresetError =
    | NameRequired
    | NameTooLong
    | CreatorRequired
    | InProfile(error: ProfileError)
    | UnknownRole
    | PublicNeedsAdmin

  /** The valid presets: a non-blank name of at most 50 characters, a
      creator, a valid profile, a known role, and public only when the
      creator is an administrator. */
  predicate ValidPreset(r: PresetRecord) {
    && !IsBlank(r.name) && |r.name| <= NameLimit
    && !IsBlank(r.createdBy)
    && IsValid(r.profile)
    && KnownRole(r.creatorRole)
    && (r.isPublic ==> r.creatorRole == Admin)
  }

  /** Each profile error, as a preset error. */
  function WrapProfileErrors(es: seq<ProfileError>): (r: seq<PresetError>)
    ensures |r| == |es|
    ensures forall i :: 0 <= i < |es| ==> r[i] == InProfile(es[i])
  {
    seq(|es|, i requires 0 <= i < |es| => InProfile(es[i]))
  }

  /** The error list of `validate()`; it is empty exactly for valid presets. */
  function PresetErrors(r: PresetRecord): (errs: seq<PresetError>)
    ensures errs == [] <==> ValidPreset(r)
  {
    NameAndCreatorErrors(r) + WrapProfileErrors(ProfileErrors(r.profile)) + RoleErrors(r)
  }

  /** `validate` never looks at the category. */
  lemma ErrorsIgnoreCategory(r: PresetRecord, c: string)
    ensures PresetErrors(r.(category := c)) == PresetErrors(r)
  {
    assert NameAndCreatorErrors(r.(category := c)) == NameAndCreatorErrors(r);
    assert RoleErrors(r.(category := c)) == RoleErrors(r);
  }

  /** The errors `validate` reports ahead of the profile's. */
  function NameAndCreatorErrors(r: PresetRecord): (errs: seq<PresetError>)
    ensures forall e :: e in errs <==> e in [NameRequired, NameTooLong, CreatorRequired] && Fails(r, e)
  {
    Flag(IsBlank(r.name), NameRequired)
    + Flag(|r.name| > NameLimit, NameTooLong)
    + Flag(IsBlank(r.createdBy), CreatorRequired)
  }

  /** The errors `validate` reports after the profile's. */
  function RoleErrors(r: PresetRecord): (errs: seq<PresetError>)
    ensures forall e :: e in errs <==> e in [UnknownRole, PublicNeedsAdmin] && Fails(r, e)
  {
    Flag(!KnownRole(r.creatorRole), UnknownRole)
    + Flag(r.isPublic && r.creatorRole != Admin, PublicNeedsAdmin)
  }

  /** The condition under which `validate` reports `e`. */
  predicate Fails(r: PresetRecord, e: PresetError) {
    match e
    case NameRequired => IsBlank(r.name)
    case NameTooLong => |r.name| > NameLimit
    case CreatorRequired => IsBlank(r.createdBy)
    case InProfile(pe) => pe in ProfileErrors(r.profile)
    case UnknownRole => !KnownRole(r.creatorRole)
    case PublicNeedsAdmin => r.isPublic && r.creatorRole != Admin
  }

  /** `validate` reports an error exactly when its condition holds; the
      profile's errors appear exactly as the profile reports them. */
  lemma ReportsExactly(r: PresetRecord, e: PresetError)
    ensures e in PresetErrors(r) <==> Fails(r, e)
  {
    WrappedMembers(ProfileErrors(r.profile), e);
  }

  /** The wrapped profile errors are exactly the profile's errors. */
  lemma WrappedMembers(es: seq<ProfileError>, e: PresetError)
    ensures e in WrapProfileErrors(es) <==> e.InProfile? && e.error in es
  {
    if e.InProfile? && e.error in es {
      var i :| 0 <= i < |es| && es[i] == e.error;
      assert WrapProfileErrors(es)[i] == e;
    }
  }

  /** The invariant `validate` keeps: a valid public preset was created by an
      administrator. */
  lemma PublicImpliesAdmin(r: PresetRecord)
    requires PresetErrors(r) == []
    requires r.isPublic
    ensures r.creatorRole == Admin
  {
  }

  // ---------------------------------------------------------------------
  // Access
  // ---------------------------------------------------------------------

  /** `canUserView(userId, userRole)`: admins first, then the creator, then public. */
  predicate CanUserView(r: PresetRecord, userId: string, role: string) {
    if role == Admin then true
    else if r.createdBy == userId then true
    else if r.isPublic then true
    else false
  }

  /** `canView(userId, userRole)`. */
  predicate CanView(r: PresetRecord, userId: string, role: string) {
    r.isPublic || r.createdBy == userId || role == Admin
  }

  /** `canUse(userId, userRole)`. */
  predicate CanUse(r: PresetRecord, userId: string, role: string) {
    CanView(r, userId, role)
  }

  /** `canManage(userId, userRole)`. */
  predicate CanManage(r: PresetRecord, userId: string, role: string) {
    role == Admin || r.createdBy == userId
  }

  /** The two visibility checks and the use check agree on every input; of
      the eight combinations of (admin, creator, public) only the one with
      none of them hides the preset. */
  lemma VisibilityAgrees(r: PresetRecord, userId: string, role: string)
    ensures CanUserView(r, userId, role) == CanView(r, userId, role) == CanUse(r, userId, role)
    ensures !CanView(r, userId, role) <==> role != Admin && r.createdBy != userId && !r.isPublic
  {
  }

  /** Whoever may manage a preset may view it; a viewer who may not manage
      it sees it only because it is public. */
  lemma ManageImpliesView(r: PresetRecord, userId: string, role: string)
    ensures CanManage(r, userId, role) ==> CanView(r, userId, role)
    ensures CanView(r, userId, role) && !CanManage(r, userId, role) ==> r.isPublic
  {
  }

  /** `Preset.canCreatePublicPreset(userRole, isPublic)`. */
  predicate CanCreatePublicPreset(role: string, isPublic: bool) {
    if !isPublic then true else role == Admin
  }

  /** The creation gate is exactly the condition under which `validate` does
      not report a public preset without an administrator. */
  lemma CreateGateMatchesValidate(r: PresetRecord)
    ensures CanCreatePublicPreset(r.creatorRole, r.isPublic) <==> PublicNeedsAdmin !in PresetErrors(r)
    ensures CanCreatePublicPreset(r.creatorRole, r.isPublic) <==> (!r.isPublic || r.creatorRole == Admin)
  {
    ReportsExactly(r, PublicNeedsAdmin);
  }

  // ---------------------------------------------------------------------
  // Changes
  // ---------------------------------------------------------------------

  /** The partial update accepted by `update`. */
  datatype PresetUpdate = PresetUpdate(
    name: Option<string>,
    category: Option<string>,
    description: Option<string>,
    isPublic: Option<bool>,
    profile: Option<AudioUpdate>)

  /** The state after `update(updates)`: name and category only when
      non-empty, description whenever supplied, `is_public` only when a
      boolean is supplied, the profile through the profile's own update. */
  function UpdatedPreset(r: PresetRecord, u: PresetUpdate, now: string): PresetRecord
  {
    UpdatedDetails(r, u).(
      profile := if u.profile.Some? then Updated(r.profile, u.profile.value, now) else r.profile,
      updatedAt := now)
  }

  /** The descriptive fields after `update`: a name or category only when
      non-empty, a description or flag whenever supplied. */
  function UpdatedDetails(r: PresetRecord, u: PresetUpdate): PresetRecord
  {
    r.(name := if Present(u.name) then u.name.value else r.name,
       category := if Present(u.category) then u.category.value else r.category,
       description := u.description.GetOr(r.description),
       isPublic := u.isPublic.GetOr(r.isPublic))
  }

  /** `update` changes only the supplied fields, the profile through its
      own update, and the timestamp. */
  lemma UpdateChanges(r: PresetRecord, u: PresetUpdate, now: string)
    ensures UpdatedPreset(r, u, now).name == (if Present(u.name) then u.name.value else r.name)
    ensures UpdatedPreset(r, u, now).category == (if Present(u.category) then u.category.value else r.category)
    ensures u.description.Some? ==> UpdatedPreset(r, u, now).description == u.description.value
    ensures u.description.None? ==> UpdatedPreset(r, u, now).description == r.description
    ensures u.isPublic.Some? ==> UpdatedPreset(r, u, now).isPublic == u.isPublic.value
    ensures u.isPublic.None? ==> UpdatedPreset(r, u, now).isPublic == r.isPublic
    ensures u.profile.Some? ==> UpdatedPreset(r, u, now).profile == Updated(r.profile, u.profile.value, now)
    ensures u.profile.Some? ==> UpdatedPreset(r, u, now).profile.syncVersion == r.profile.syncVersion + 1
    ensures u.profile.None? ==> UpdatedPreset(r, u, now).profile == r.profile
    ensures UpdatedPreset(r, u, now).updatedAt == now
    ensures UpdatedPreset(r, u, now).(name := r.name, category := r.category, description := r.description,
                                      isPublic := r.isPublic, profile := r.profile, updatedAt := r.updatedAt) == r
  {
  }

  /** An update keeps a preset valid unless it brings in a name that is
      blank or too long, or publishes a preset whose creator is not an
      administrator. */
  lemma UpdateKeepsValidity(r: PresetRecord, u: PresetUpdate, now: string)
    requires ValidPreset(r)
    requires Present(u.name) ==> !IsBlank(u.name.value) && |u.name.value| <= NameLimit
    requires u.isPublic == Some(true) ==> r.creatorRole == Admin
    ensures ValidPreset(UpdatedPreset(r, u, now))
  {
  }

  /** `update` does not check the publishing rule: a private preset of a
      standard user becomes public and stops being valid. */
  lemma UpdateCanPublishWithoutAdmin(r: PresetRecord, now: string)
    requires ValidPreset(r) && r.creatorRole == StandardUser
    ensures !ValidPreset(UpdatedPreset(r, PresetUpdate(None, None, None, Some(true), None), now))
  {
  }

  /** The state after `incrementUsage()`: one more use, a new timestamp, and
      nothing else changed. */
  function Used(r: PresetRecord, now: string): (q: PresetRecord)
    ensures q.usageCount == r.usageCount + 1 && q.updatedAt == now
    ensures q.(usageCount := r.usageCount, updatedAt := r.updatedAt) == r
  {
    r.(usageCount := r.usageCount + 1, updatedAt := now)
  }

  /** Counting a use changes neither validity nor who may see or manage the preset. */
  lemma UseKeepsAccess(r: PresetRecord, now: string, userId: string, role: string)
    ensures ValidPreset(Used(r, now)) == ValidPreset(r)
    ensures CanView(Used(r, now), userId, role) == CanView(r, userId, role)
    ensures CanManage(Used(r, now), userId, role) == CanManage(r, userId, role)
  {
  }

  // ---------------------------------------------------------------------
  // Listings
  // ---------------------------------------------------------------------

  /** `Preset.filterByCategory(presets, category)`: everything for no
      category or 'all', otherwise the presets of exactly that category, in
      their original order. */
  function FilterByCategory(presets: seq<PresetRecord>, category: Option<string>): (r: seq<PresetRecord>)
    ensures !Present(category) || category.value == "all" ==> r == presets
    ensures SubsequenceOf(r, presets)
    ensures Present(category) && category.value != "all" ==>
              (forall p :: p in r ==> p in presets && p.category == category.value)
              && (forall p :: p in presets && p.category == category.value ==> p in r)
    ensures Present(category) && category.value != "all" ==>
              forall p :: multiset(r)[p] == if p.category == category.value then multiset(presets)[p] else 0
  {
    if !Present(category) || category.value == "all" then
      SubsequenceOfSelf(presets);
      presets
    else
      Filter(presets, (p: PresetRecord) => p.category == category.value)
  }

  lemma {:induction false} SubsequenceOfSelf<T>(s: seq<T>)
    ensures SubsequenceOf(s, s)
    decreases |s|
  {
    if s != [] {
      SubsequenceOfSelf(s[1..]);
    }
  }

  /** `getUsageSummary()`. */
  datatype UsageSummary = UsageSummary(
    presetId: string,
    name: string,
    category: string,
    usageCount: int,
    isPopular: bool,
    createdByRole: string,
    lastUpdated: string)

  function GetUsageSummary(r: PresetRecord): (s: UsageSummary)
    ensures s.isPopular <==> r.usageCount > PopularAbove
    ensures s.presetId == r.presetId && s.usageCount == r.usageCount
  {
    UsageSummary(r.presetId, r.name, r.category, r.usageCount, r.usageCount > PopularAbove,
                 r.creatorRole, r.updatedAt)
  }

  /** Once popular, a preset stays popular however often it is used again. */
  lemma {:induction false} PopularStaysPopular(r: PresetRecord, times: nat, now: string)
    requires GetUsageSummary(r).isPopular
    ensures GetUsageSummary(UsedTimes(r, times, now)).isPopular
    ensures UsedTimes(r, times, now).usageCount == r.usageCount + times
    decreases times
  {
    if times > 0 {
      PopularStaysPopular(r, times - 1, now);
    }
  }

  /** `times` successive uses. */
  function UsedTimes(r: PresetRecord, times: nat, now: string): PresetRecord
    decreases times
  {
    if times == 0 then r else Used(UsedTimes(r, times - 1, now), now)
  }

  /** `toApiResponse()`. */
  datatype PresetResponse = PresetResponse(
    id: string,
    name: string,
    category: string,
    profile: ClientProfile,
    createdBy: string,
    creatorRole: string,
    isPublic: bool,
    description: string,
    usageCount: int,
    createdAt: string,
    updatedAt: string)

  function ToApiResponse(r: PresetRecord): (resp: PresetResponse)
    ensures resp.id == r.presetId && resp.createdAt == r.createdAt && resp.isPublic == r.isPublic
    ensures resp.profile.volume == r.profile.volume && resp.profile.eq == r.profile.eq
    ensures resp.profile.reverb == r.profile.reverb && resp.profile.lastPresetId == r.profile.lastPresetId
    ensures resp.name == r.name && resp.category == r.category && resp.description == r.description
    ensures resp.createdBy == r.createdBy && resp.creatorRole == r.creatorRole
    ensures resp.usageCount == r.usageCount && resp.updatedAt == r.updatedAt
  {
    PresetResponse(r.presetId, r.name, r.category, ToClient(r.profile), r.createdBy, r.creatorRole,
                   r.isPublic, r.description, r.usageCount, r.createdAt, r.updatedAt)
  }

  // ---------------------------------------------------------------------
  // The object
  // ---------------------------------------------------------------------

  class Preset {
    var pk: string
    var sk: string
    var presetId: string
    var name: string
    var category: string
    var profile: AudioProfile
    var createdBy: string
    var creatorRole: string
    var isPublic: bool
    var description: string
    var usageCount: int
    var createdAt: string
    var updatedAt: string

    /** The object's fields as a value, its profile included. */
    function Snapshot(): PresetRecord
      reads this, profile
    {
      PresetRecord(pk, sk, presetId, name, category, profile.Snapshot(), createdBy, creatorRole,
                   isPublic, description, usageCount, createdAt, updatedAt)
    }

    /** `new Preset(data)`. */
    constructor (data: PresetData, now: string, freshId: string)
      ensures Snapshot() == NewPreset(data, now, freshId)
      ensures fresh(profile)
    {
      var r := NewPreset(data, now, freshId);
      pk, sk, presetId, name, category := r.pk, r.sk, r.presetId, r.name, r.category;
      createdBy, creatorRole, isPublic, description := r.createdBy, r.creatorRole, r.isPublic, r.description;
      usageCount, createdAt, updatedAt := r.usageCount, r.createdAt, r.updatedAt;
      profile := new AudioProfile(if data.profile.Some? then DynamoData(data.profile.value) else DefaultData, now);
    }

    /** `update(updates)`. */
    method Update(u: PresetUpdate, now: string)
      modifies this, profile
      ensures profile == old(profile)
      ensures Snapshot() == UpdatedPreset(old(Snapshot()), u, now)
    {
      SetDetails(u);
      if u.profile.Some? {
        profile.Update(u.profile.value, now);
      }
      updatedAt := now;
    }

    /** The first steps of `update`: the descriptive fields it is given. */
    method SetDetails(u: PresetUpdate)
      modifies this
      ensures profile == old(profile)
      ensures Snapshot() == UpdatedDetails(old(Snapshot()), u)
    {
      if Present(u.name) {
        name := u.name.value;
      }
      if Present(u.category) {
        category := u.category.value;
      }
      if u.description.Some? {
        description := u.description.value;
      }
      if u.isPublic.Some? {
        isPublic := u.isPublic.value;
      }
    }

    /** `incrementUsage()`. */
    method IncrementUsage(now: string)
      modifies this
      ensures profile == old(profile)
      ensures Snapshot() == Used(old(Snapshot()), now)
    {
      usageCount := usageCount + 1;
      updatedAt := now;
    }
  }
}
