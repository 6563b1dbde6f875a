/** The guards of the apply-preset request (POST
    /api/devices/{device_id}/apply-preset): the path and the body must name
    a device and a preset, the device must exist and the caller must be able
    to operate it, the preset must exist, belong to the device, and be
    visible to the caller.

    The lookups are not modelled: the device found and the raw preset item
    found are parameters. The preset the handler works with is the item
    hydrated into a Preset object. */
module ApplyPreset {
  import opened Common
  import opened Presets
  import opened Devices
  import UpdateDevice
  import GetPresets

  /** The reasons for refusing a request, in the order they are checked. */
  datatype ApplyError =
    | NoDeviceId
    | NoPresetId
    | NoSuchDevice
    | DeviceForbidden
    | NoSuchPreset
    | WrongDevice
    | PresetForbidden

  /** The HTTP status each refusal is answered with. */
  function Status(e: ApplyError): (code: nat)
    ensures code == 404 <==> e == NoSuchDevice || e == NoSuchPreset
    ensures code == 403 <==> e == DeviceForbidden || e == PresetForbidden
    ensures code == 400 || code == 403 || code == 404
  {
    match e
    case NoSuchDevice => 404
    case NoSuchPreset => 404
    case DeviceForbidden => 403
    case PresetForbidden => 403
    case _ => 400
  }

  datatype Decision = Refused(error: ApplyError) | Proceed(device: DeviceRecord, preset: PresetRecord)

  /** The device id a hydrated Preset object reports: the class has no
      such property, so reading it gives nothing. */
  function HydratedDeviceId(p: PresetRecord): Option<string> {
    None
  }

  /** Hydrating a stored preset forgets its device id: two items that differ
      only there give the same Preset object, so the device check cannot
      depend on what the table holds. */
  lemma HydrationDropsDeviceId(item: PresetData, now: string, freshId: string)
    ensures Presets.FromItem(item, now, freshId) == Presets.FromItem(item.(deviceId := None), now, freshId)
  {
    assert item.(deviceId := None).(deviceId := None) == item.(deviceId := None);
  }

  /** The guards as written: the device check compares the path id with the
      hydrated preset's device id. */
  function GuardsAsWritten(deviceId: Option<string>, presetId: Option<string>, device: Option<DeviceRecord>,
                           item: Option<PresetData>, caller: Caller, now: string, freshId: string): Decision
  {
    if !Present(deviceId) then Refused(NoDeviceId)
    else if !Present(presetId) then Refused(NoPresetId)
    else if device.None? then Refused(NoSuchDevice)
    else if !UpdateDevice.CanOperateDevice(device.value, caller) then Refused(DeviceForbidden)
    else if item.None? then Refused(NoSuchPreset)
    else
      var preset := Presets.FromItem(item.value, now, freshId);
      if HydratedDeviceId(preset) != deviceId then Refused(WrongDevice)
      else if !CanView(preset, caller.userId, caller.role) then Refused(PresetForbidden)
      else Proceed(device.value, preset)
  }

  /** As written, no request ever gets past the guards: every one that
      reaches the device check is refused there with 400. */
  lemma AsWrittenNeverProceeds(deviceId: Option<string>, presetId: Option<string>, device: Option<DeviceRecord>,
                               item: Option<PresetData>, caller: Caller, now: string, freshId: string)
    ensures GuardsAsWritten(deviceId, presetId, device, item, caller, now, freshId).Refused?
    ensures Present(deviceId) && Present(presetId) && device.Some?
            && UpdateDevice.CanOperateDevice(device.value, caller) && item.Some? ==>
              GuardsAsWritten(deviceId, presetId, device, item, caller, now, freshId) == Refused(WrongDevice)
  {
  }

  /** The guards with the device check reading the stored item's device id,
      scoped as the preset listing scopes it: a preset tied to another
      device is refused, one tied to no device is not. */
  function Guards(deviceId: Option<string>, presetId: Option<string>, device: Option<DeviceRecord>,
                  item: Option<PresetData>, caller: Caller, now: string, freshId: string): Decision
  {
    if !Present(deviceId) then Refused(NoDeviceId)
    else if !Present(presetId) then Refused(NoPresetId)
    else if device.None? then Refused(NoSuchDevice)
    else if !UpdateDevice.CanOperateDevice(device.value, caller) then Refused(DeviceForbidden)
    else if item.None? then Refused(NoSuchPreset)
    else if !GetPresets.InDeviceScope(deviceId, item.value) then Refused(WrongDevice)
    else
      var preset := Presets.FromItem(item.value, now, freshId);
      if !CanView(preset, caller.userId, caller.role) then Refused(PresetForbidden)
      else Proceed(device.value, preset)
  }

  /** The two versions differ only at the device check: every refusal
      decided before it is the same. */
  lemma AgreeBeforeDeviceCheck(deviceId: Option<string>, presetId: Option<string>, device: Option<DeviceRecord>,
                               item: Option<PresetData>, caller: Caller, now: string, freshId: string)
    ensures GuardsAsWritten(deviceId, presetId, device, item, caller, now, freshId) != Refused(WrongDevice) ==>
      Guards(deviceId, presetId, device, item, caller, now, freshId)
        == GuardsAsWritten(deviceId, presetId, device, item, caller, now, freshId)
  {
  }

  /** The path and body ids are checked before any lookup result is used,
      the device before the preset. */
  lemma ChecksInOrder(deviceId: Option<string>, presetId: Option<string>, device: Option<DeviceRecord>,
                      item: Option<PresetData>, caller: Caller, now: string, freshId: string,
                      device2: Option<DeviceRecord>, item2: Option<PresetData>)
    ensures !Present(deviceId) ==> Guards(deviceId, presetId, device, item, caller, now, freshId) == Refused(NoDeviceId)
    ensures Present(deviceId) && !Present(presetId) ==>
              Guards(deviceId, presetId, device, item, caller, now, freshId) == Refused(NoPresetId)
    ensures !Present(deviceId) || !Present(presetId) ==>
              Guards(deviceId, presetId, device, item, caller, now, freshId)
                == Guards(deviceId, presetId, device2, item2, caller, now, freshId)
    ensures Present(deviceId) && Present(presetId) && device.None? ==>
              Guards(deviceId, presetId, device, item, caller, now, freshId) == Refused(NoSuchDevice)
    ensures Present(deviceId) && Present(presetId) && device.Some?
            && !UpdateDevice.CanOperateDevice(device.value, caller) ==>
              Guards(deviceId, presetId, device, item, caller, now, freshId)
                == Guards(deviceId, presetId, device, item2, caller, now, freshId) == Refused(DeviceForbidden)
    ensures Present(deviceId) && Present(presetId) && device.Some?
            && UpdateDevice.CanOperateDevice(device.value, caller) && item.None? ==>
              Guards(deviceId, presetId, device, item, caller, now, freshId) == Refused(NoSuchPreset)
    ensures Present(deviceId) && Present(presetId) && device.Some?
            && UpdateDevice.CanOperateDevice(device.value, caller) && item.Some?
            && !GetPresets.InDeviceScope(deviceId, item.value) ==>
              Guards(deviceId, presetId, device, item, caller, now, freshId) == Refused(WrongDevice)
    ensures Present(deviceId) && Present(presetId) && device.Some?
            && UpdateDevice.CanOperateDevice(device.value, caller) && item.Some?
            && GetPresets.InDeviceScope(deviceId, item.value)
            && !CanView(Presets.FromItem(item.value, now, freshId), caller.userId, caller.role) ==>
              Guards(deviceId, presetId, device, item, caller, now, freshId) == Refused(PresetForbidden)
  {
  }

  /** A request gets past the corrected guards exactly when both ids are
      given, the caller may operate the device, the preset exists, is not
      tied to another device, and is visible to the caller; the preset
      carried on is the hydrated item. */
  lemma ProceedExactly(deviceId: Option<string>, presetId: Option<string>, device: Option<DeviceRecord>,
                       item: Option<PresetData>, caller: Caller, now: string, freshId: string)
    ensures Guards(deviceId, presetId, device, item, caller, now, freshId).Proceed? <==>
      && Present(deviceId) && Present(presetId)
      && device.Some? && UpdateDevice.CanOperateDevice(device.value, caller)
      && item.Some? && GetPresets.InDeviceScope(deviceId, item.value)
      && CanView(Presets.FromItem(item.value, now, freshId), caller.userId, caller.role)
    ensures Guards(deviceId, presetId, device, item, caller, now, freshId).Proceed? ==>
      Guards(deviceId, presetId, device, item, caller, now, freshId)
        == Proceed(device.value, Presets.FromItem(item.value, now, freshId))
  {
  }

  /** A preset that can be applied to a device is one the listing for that
      device shows the caller, when its item carries `is_public`. */
  lemma ApplicableIsListed(deviceId: Option<string>, presetId: Option<string>, device: Option<DeviceRecord>,
                           item: Option<PresetData>, caller: Caller, now: string, freshId: string)
    requires caller.userId != ""
    requires Guards(deviceId, presetId, device, item, caller, now, freshId).Proceed?
    requires item.value.isPublic.Some?
    ensures GetPresets.Accessible(deviceId, caller, item.value)
  {
    GetPresets.ListingAgreesWithCanView(caller, item.value, now, freshId);
  }

  /** Applying a preset that got past the guards gives the device the
      preset's settings, and a valid preset leaves a valid device valid. */
  lemma ProceedApplies(deviceId: Option<string>, presetId: Option<string>, device: Option<DeviceRecord>,
                       item: Option<PresetData>, caller: Caller, now: string, freshId: string)
    requires Guards(deviceId, presetId, device, item, caller, now, freshId).Proceed?
    ensures var d := Guards(deviceId, presetId, device, item, caller, now, freshId);
      var q := AppliedPreset(d.device, d.preset, now);
      && q.state.volume == d.preset.profile.volume
      && q.state.eq == d.preset.profile.eq
      && q.state.reverb == d.preset.profile.reverb
      && q.state.syncVersion == 1
      && q.ownerId == device.value.ownerId
      && (ValidDevice(d.device) && ValidPreset(d.preset) ==> ValidDevice(q))
  {
    var d := Guards(deviceId, presetId, device, item, caller, now, freshId);
    ApplyPresetOverwrites(d.device, d.device, d.preset, now);
  }
}
