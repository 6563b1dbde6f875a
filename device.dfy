/** A physical audio device: its metadata, its owner, whether it is online,
    and its whole audio state as an AudioProfile. */
module Devices {
  import opened Common
  import opened AudioProfiles
  import Presets

  const KeyPrefix: string := "DEVICE#"
  const SortKey: string := "DEVICE"
  const EntityType: string := "Device"
  const DefaultName: string := "Default Audio Device"
  const NameLimit: nat := 50
  const ModelLimit: nat := 100

  /** The fields of a Device object, which are also its stored item. */
  datatype DeviceRecord = DeviceRecord(
    pk: string,
    sk: string,
    deviceId: string,
    name: string,
    model: string,
    ownerId: string,
    state: Profile,
    isOnline: bool,
    lastSeen: string,
    createdAt: string,
    updatedAt: string)

  /** The plain object the constructor is given, or an item read back from
      the table; `None` is an absent or null attribute. */
  datatype DeviceData = DeviceData(
    pk: Option<string>,
    sk: Option<string>,
    deviceId: Option<string>,
    name: Option<string>,
    model: Option<string>,
    ownerId: Option<string>,
    state: Option<ProfileData>,
    isOnline: Option<bool>,
    lastSeen: Option<string>,
    createdAt: Option<string>,
    updatedAt: Option<string>)

  /** What every object built from an item it wrote itself looks like; the
      name in particular is never empty, since an empty one is replaced. */
  predicate DeviceHydrated(d: DeviceRecord) {
    && d.pk != "" && d.sk != "" && d.deviceId != "" && d.name != ""
    && d.lastSeen != "" && d.createdAt != "" && d.updatedAt != "" && Hydrated(d.state)
  }

  // ---------------------------------------------------------------------
  // Construction and stored form
  // ---------------------------------------------------------------------

  /** `new Device(data)`, with `now` the current time and `freshId` the uuid
      the constructor would draw. A device without a state gets the default
      profile; a missing online flag means offline. */
  function NewDevice(data: DeviceData, now: string, freshId: string): (d: DeviceRecord)
    ensures Present(data.deviceId) ==> d.deviceId == data.deviceId.value
    ensures !Present(data.pk) ==> d.pk == KeyPrefix + d.deviceId
    ensures !Present(data.pk) && !Present(data.deviceId) ==> d.deviceId == freshId
    ensures d.name == (if Present(data.name) then data.name.value else DefaultName)
    ensures d.isOnline <==> data.isOnline == Some(true)
    ensures data.state.None? ==> d.state == CreateDefault(now)
    ensures now != "" && freshId != "" && !Present(data.pk) ==> DeviceHydrated(d)
  {
    var pk := OrElse(data.pk, KeyPrefix + OrElse(data.deviceId, freshId));
    StripPrefix(KeyPrefix, freshId);
    DeviceRecord(
      pk,
      OrElse(data.sk, SortKey),
      OrElse(data.deviceId, ReplaceFirst(pk, KeyPrefix, "")),
      OrElse(data.name, DefaultName),
      OrElse(data.model, ""),
      OrElse(data.ownerId, ""),
      if data.state.Some? then FromDynamo(data.state.value, now) else CreateDefault(now),
      data.isOnline.GetOr(false),
      OrElse(data.lastSeen, now),
      OrElse(data.createdAt, now),
      OrElse(data.updatedAt, now))
  }

  /** `toDynamoItem()`. */
  function ToItem(d: DeviceRecord): DeviceData {
    DeviceData(Some(d.pk), Some(d.sk), Some(d.deviceId), Some(d.name), Some(d.model), Some(d.ownerId),
               Some(ToDynamo(d.state)), Some(d.isOnline), Some(d.lastSeen), Some(d.createdAt),
               Some(d.updatedAt))
  }

  /** `Device.fromDynamoItem(item)`: the constructor over the item's attributes. */
  function FromItem(item: DeviceData, now: string, freshId: string): DeviceRecord {
    NewDevice(item, now, freshId)
  }

  /** Reading back a stored device reproduces it. */
  lemma RoundTrip(d: DeviceRecord, now: string, freshId: string)
    requires DeviceHydrated(d)
    ensures FromItem(ToItem(d), now, freshId) == d
  {
    AudioProfiles.RoundTrip(d.state, now);
  }

  /** Why the round trip needs a non-empty name: an empty one comes back as
      the default name. */
  lemma EmptyNameComesBackDefault(d: DeviceRecord, now: string, freshId: string)
    requires d.name == ""
    ensures FromItem(ToItem(d), now, freshId).name == DefaultName
    ensures FromItem(ToItem(d), now, freshId) != d
  {
  }

  // ---------------------------------------------------------------------
  // Validation
  // ---------------------------------------------------------------------

  /** The validation errors, in the order `validate` reports them. */
  datatype DeviceError =
    | IdRequired
    | NameRequired
    | NameTooLong
    | OwnerRequired
    | ModelTooLong
    | InState(error: ProfileError)

  /** The valid devices: an id, a non-blank name of at most 50 characters,
      an owner, a model of at most 100 characters, and a valid state. */
  predicate ValidDevice(d: DeviceRecord) {
    && !IsBlank(d.deviceId)
    && !IsBlank(d.name) && |d.name| <= NameLimit
    && !IsBlank(d.ownerId)
    && |d.model| <= ModelLimit
    && IsValid(d.state)
  }

  /** Each state error, as a device error. */
  function WrapStateErrors(es: seq<ProfileError>): (r: seq<DeviceError>)
    ensures |r| == |es|
    ensures forall i :: 0 <= i < |es| ==> r[i] == InState(es[i])
  {
    seq(|es|, i requires 0 <= i < |es| => InState(es[i]))
  }

  /** The error list of `validate()`; it is empty exactly for valid devices. */
  function DeviceErrors(d: DeviceRecord): (errs: seq<DeviceError>)
    ensures errs == [] <==> ValidDevice(d)
  {
    MetadataErrors(d) + WrapStateErrors(ProfileErrors(d.state))
  }

  /** The metadata errors ahead of the state's errors. */
  function MetadataErrors(d: DeviceRecord): seq<DeviceError> {
    Flag(IsBlank(d.deviceId), IdRequired)
    + Flag(IsBlank(d.name), NameRequired)
    + Flag(|d.name| > NameLimit, NameTooLong)
    + Flag(IsBlank(d.ownerId), OwnerRequired)
    + Flag(|d.model| > ModelLimit, ModelTooLong)
  }

  /** The condition under which `validate` reports `e`. */
  predicate Fails(d: DeviceRecord, e: DeviceError) {
    match e
    case IdRequired => IsBlank(d.deviceId)
    case NameRequired => IsBlank(d.name)
    case NameTooLong => |d.name| > NameLimit
    case OwnerRequired => IsBlank(d.ownerId)
    case ModelTooLong => |d.model| > ModelLimit
    case InState(pe) => pe in ProfileErrors(d.state)
  }

  /** `validate` reports an error exactly when its condition holds; the
      state's errors appear exactly as the state reports them. */
  lemma ReportsExactly(d: DeviceRecord, e: DeviceError)
    ensures e in DeviceErrors(d) <==> Fails(d, e)
  {
    var m := MetadataErrors(d);
    assert DeviceErrors(d) == m + WrapStateErrors(ProfileErrors(d.state));
    WrappedMembers(ProfileErrors(d.state), e);
    if e.InState? {
      assert e !in m;
    }
  }

  /** The wrapped state errors are exactly the state's errors. */
  lemma WrappedMembers(es: seq<ProfileError>, e: DeviceError)
    ensures e in WrapStateErrors(es) <==> e.InState? && e.error in es
  {
    if e.InState? && e.error in es {
      var i :| 0 <= i < |es| && es[i] == e.error;
      assert WrapStateErrors(es)[i] == e;
    }
  }

  // ---------------------------------------------------------------------
  // Changes
  // ---------------------------------------------------------------------

  /** The metadata accepted by `updateInfo`. */
  datatype InfoUpdate = InfoUpdate(name: Option<string>, model: Option<string>)

  /** The state after `updateInfo(updates)`: the name becomes its trimmed
      form when that is not empty, a supplied model is trimmed; owner, state
      and identity are untouched. */
  function InfoUpdated(d: DeviceRecord, u: InfoUpdate, now: string): DeviceRecord
  {
    d.(name := if u.name.Some? && Trim(u.name.value) != "" then Trim(u.name.value) else d.name,
       model := if u.model.Some? then Trim(u.model.value) else d.model,
       updatedAt := now)
  }

  /** `updateInfo` sets the trimmed name when it is not empty and the
      trimmed model when one is supplied, and changes nothing else but the
      timestamp. */
  lemma InfoUpdateChanges(d: DeviceRecord, u: InfoUpdate, now: string)
    ensures u.name.Some? && !IsBlank(u.name.value) ==>
              InfoUpdated(d, u, now).name == Trim(u.name.value) && !IsBlank(InfoUpdated(d, u, now).name)
    ensures !(u.name.Some? && !IsBlank(u.name.value)) ==> InfoUpdated(d, u, now).name == d.name
    ensures u.model.Some? ==> InfoUpdated(d, u, now).model == Trim(u.model.value)
    ensures u.model.None? ==> InfoUpdated(d, u, now).model == d.model
    ensures InfoUpdated(d, u, now).updatedAt == now
    ensures InfoUpdated(d, u, now).(name := d.name, model := d.model, updatedAt := d.updatedAt) == d
  {
  }

  /** Metadata updates keep a device valid when the trimmed name and model
      fit their limits. */
  lemma InfoUpdateKeepsValidity(d: DeviceRecord, u: InfoUpdate, now: string)
    requires ValidDevice(d)
    requires u.name.Some? ==> |Trim(u.name.value)| <= NameLimit
    requires u.model.Some? ==> |Trim(u.model.value)| <= ModelLimit
    ensures ValidDevice(InfoUpdated(d, u, now))
  {
    if u.name.Some? && !IsBlank(u.name.value) {
      TrimmedNotBlank(u.name.value);
    }
  }

  /** The state after `updateState(audioUpdates)`: the state is updated as
      the profile updates itself, the metadata is untouched. */
  function StateUpdated(d: DeviceRecord, u: AudioUpdate, now: string): (q: DeviceRecord)
    ensures q.state == Updated(d.state, u, now)
    ensures q.state.syncVersion == d.state.syncVersion + 1
    ensures q.updatedAt == now
    ensures q.(state := d.state, updatedAt := d.updatedAt) == d
  {
    d.(state := Updated(d.state, u, now), updatedAt := now)
  }

  /** A state update never makes a valid device invalid. */
  lemma StateUpdateKeepsValidity(d: DeviceRecord, u: AudioUpdate, now: string)
    requires ValidDevice(d)
    ensures ValidDevice(StateUpdated(d, u, now))
  {
  }

  /** The state after `applyPreset(preset)`: a fresh profile carrying the
      preset's settings and id at version 1, replacing the old state. */
  function AppliedPreset(d: DeviceRecord, preset: Presets.PresetRecord, now: string): (q: DeviceRecord)
    ensures q.state.volume == preset.profile.volume && q.state.eq == preset.profile.eq
    ensures q.state.reverb == preset.profile.reverb
    ensures preset.presetId != "" ==> q.state.lastPresetId == Some(preset.presetId)
    ensures preset.presetId == "" ==> q.state.lastPresetId == None
    ensures q.state.syncVersion == 1 && q.state.updatedAt == now && q.updatedAt == now
    ensures q.(state := d.state, updatedAt := d.updatedAt) == d
  {
    d.(state := FromPreset(preset.profile, Some(preset.presetId), now), updatedAt := now)
  }

  /** Applying a preset overwrites rather than merges: the new state does
      not depend on the old one, and a valid preset leaves a valid device. */
  lemma ApplyPresetOverwrites(d1: DeviceRecord, d2: DeviceRecord, preset: Presets.PresetRecord, now: string)
    ensures AppliedPreset(d1, preset, now).state == AppliedPreset(d2, preset, now).state
    ensures ValidDevice(d1) && Presets.ValidPreset(preset) ==> ValidDevice(AppliedPreset(d1, preset, now))
  {
  }

  /** The state after `setOnline()`. */
  function Online(d: DeviceRecord, now: string): (q: DeviceRecord)
    ensures q.isOnline && q.lastSeen == now && q.updatedAt == q.lastSeen
    ensures q.(isOnline := d.isOnline, lastSeen := d.lastSeen, updatedAt := d.updatedAt) == d
  {
    d.(isOnline := true, lastSeen := now, updatedAt := now)
  }

  /** The state after `setOffline()`: the last sighting is kept. */
  function Offline(d: DeviceRecord, now: string): (q: DeviceRecord)
    ensures !q.isOnline && q.lastSeen == d.lastSeen && q.updatedAt == now
    ensures q.(isOnline := d.isOnline, updatedAt := d.updatedAt) == d
  {
    d.(isOnline := false, updatedAt := now)
  }

  /** Going offline after going online remembers when the device was last seen. */
  lemma OnlineThenOffline(d: DeviceRecord, t1: string, t2: string)
    ensures Offline(Online(d, t1), t2).lastSeen == t1
    ensures !Offline(Online(d, t1), t2).isOnline
    ensures ValidDevice(Offline(Online(d, t1), t2)) == ValidDevice(d)
  {
  }

  // ---------------------------------------------------------------------
  // Access
  // ---------------------------------------------------------------------

  /** `isOwnedBy(userId)`. */
  predicate IsOwnedBy(d: DeviceRecord, userId: string) {
    d.ownerId == userId
  }

  /** `canManage(userId, userRole)`. */
  predicate CanManage(d: DeviceRecord, userId: string, role: string) {
    IsOwnedBy(d, userId) || role == Admin
  }

  /** The owner may always manage the device, an administrator any device,
      and nobody else. */
  lemma ManageRule(d: DeviceRecord, userId: string, role: string)
    ensures IsOwnedBy(d, userId) ==> CanManage(d, userId, role)
    ensures role == Admin ==> CanManage(d, userId, role)
    ensures CanManage(d, userId, role) && role != Admin ==> d.ownerId == userId
  {
  }

  // ---------------------------------------------------------------------
  // The object
  // ---------------------------------------------------------------------

  class Device {
    var pk: string
    var sk: string
    var deviceId: string
    var name: string
    var model: string
    var ownerId: string
    var state: AudioProfile
    var isOnline: bool
    var lastSeen: string
    var createdAt: string
    var updatedAt: string

    /** The object's fields as a value, its state included. */
    function Snapshot(): DeviceRecord
      reads this, state
    {
      DeviceRecord(pk, sk, deviceId, name, model, ownerId, state.Snapshot(), isOnline, lastSeen,
                   createdAt, updatedAt)
    }

    /** `new Device(data)`. */
    constructor (data: DeviceData, now: string, freshId: string)
      ensures Snapshot() == NewDevice(data, now, freshId)
      ensures fresh(state)
    {
      var d := NewDevice(data, now, freshId);
      pk, sk, deviceId, name, model, ownerId := d.pk, d.sk, d.deviceId, d.name, d.model, d.ownerId;
      isOnline, lastSeen, createdAt, updatedAt := d.isOnline, d.lastSeen, d.createdAt, d.updatedAt;
      state := new AudioProfile(if data.state.Some? then DynamoData(data.state.value) else DefaultData, now);
    }

    /** `updateInfo(updates)`. */
    method UpdateInfo(u: InfoUpdate, now: string)
      modifies this
      ensures state == old(state)
      ensures Snapshot() == InfoUpdated(old(Snapshot()), u, now)
    {
      ghost var d := Snapshot();
      if u.name.Some? && Trim(u.name.value) != "" {
        name := Trim(u.name.value);
      }
      assert Snapshot() == d.(name := name);
      if u.model.Some? {
        model := Trim(u.model.value);
      }
      updatedAt := now;
      assert Snapshot() == d.(name := name, model := model, updatedAt := now);
    }

    /** `updateState(audioUpdates)`: the state object is updated in place. */
    method UpdateState(u: AudioUpdate, now: string)
      modifies this, state
      ensures state == old(state)
      ensures Snapshot() == StateUpdated(old(Snapshot()), u, now)
    {
      state.Update(u, now);
      updatedAt := now;
    }

    /** `applyPreset(preset)`: a new state object replaces the old one. */
    method ApplyPreset(preset: Presets.PresetRecord, now: string)
      modifies this
      ensures fresh(state)
      ensures Snapshot() == AppliedPreset(old(Snapshot()), preset, now)
    {
      state := new AudioProfile(PresetProfileData(preset.profile, Some(preset.presetId), now), now);
      updatedAt := now;
    }

    /** `setOnline()`. */
    method SetOnline(now: string)
      modifies this
      ensures state == old(state)
      ensures Snapshot() == Online(old(Snapshot()), now)
    {
      isOnline := true;
      lastSeen := now;
      updatedAt := lastSeen;
    }

    /** `setOffline()`. */
    method SetOffline(now: string)
      modifies this
      ensures state == old(state)
      ensures Snapshot() == Offline(old(Snapshot()), now)
    {
      isOnline := false;
      updatedAt := now;
    }
  }
}
