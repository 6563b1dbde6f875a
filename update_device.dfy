/** The device-update request (PUT /api/devices/{device_id}): it checks the
    path, the device and the caller's right to operate it, then checks each
    supplied field of the body in a fixed order and stops at the first bad
    one; when every supplied field is good it sends one SET expression that
    writes exactly those fields, both timestamps and the next sync version.

    The table is not modelled: the device the lookup found is a parameter
    (`None` when there is none), and the outcome is either the rejection
    the handler answers with or the list of SET clauses it sends, whose
    effect on the stored device `ApplyClauses` gives. */
module UpdateDevice {
  import opened Common
  import opened AudioProfiles
  import opened Devices

  /** `canOperateDevice(device, userInfo)`: administrators operate every
      device, everybody else only the devices they own. */
  predicate CanOperateDevice(d: DeviceRecord, caller: Caller) {
    caller.role == Admin || d.ownerId == caller.userId
  }

  /** Operating a device is the device's own `canManage` rule. */
  lemma OperateIsManage(d: DeviceRecord, caller: Caller)
    ensures CanOperateDevice(d, caller) <==> CanManage(d, caller.userId, caller.role)
  {
  }

  /** The fields of the request body the handler reads. A value of the wrong
      JSON type is not an error: it is skipped as if it were absent. */
  datatype UpdateBody = UpdateBody(volume: Json, eq: Json, reverb: Json, deviceName: Option<string>)

  /** The reasons for refusing a request, in the order they are checked. */
  datatype RequestError =
    | NoDeviceId
    | NoSuchDevice
    | NotPermitted
    | VolumeRange
    | BandCountWrong
    | BandRange(band: nat)
    | ReverbRange
    | LongName
    | NoFields

  /** The HTTP status each refusal is answered with. */
  function Status(e: RequestError): (code: nat)
    ensures code == 404 <==> e == NoSuchDevice
    ensures code == 403 <==> e == NotPermitted
    ensures code == 404 || code == 403 || code == 400
  {
    match e
    case NoSuchDevice => 404
    case NotPermitted => 403
    case _ => 400
  }

  /** One clause of the SET expression. */
  datatype SetClause =
    | SetVolume(volume: real)
    | SetEq(bands: seq<real>)
    | SetReverb(reverb: real)
    | SetName(name: string)
    | SetUpdatedAt(at: string)
    | SetStateUpdatedAt(at: string)
    | BumpSyncVersion

  datatype Outcome = Rejected(error: RequestError) | Patched(clauses: seq<SetClause>)

  // ---------------------------------------------------------------------
  // What the handler decides
  // ---------------------------------------------------------------------

  /** The first three checks pass. */
  predicate GatesPass(deviceId: Option<string>, device: Option<DeviceRecord>, caller: Caller) {
    Present(deviceId) && device.Some? && CanOperateDevice(device.value, caller)
  }

  /** A non-empty device name is written only for the owner or an administrator. */
  predicate NameApplies(d: DeviceRecord, caller: Caller, body: UpdateBody) {
    Present(body.deviceName) && (d.ownerId == caller.userId || caller.role == Admin)
  }

  /** The SET clauses for the supplied fields, in the order they are checked. */
  function FieldClauses(d: DeviceRecord, caller: Caller, body: UpdateBody): seq<SetClause> {
    (if body.volume.Num? then [SetVolume(body.volume.n)] else [])
    + (if body.eq.Arr? then [SetEq(Bands(body.eq.items))] else [])
    + (if body.reverb.Num? then [SetReverb(body.reverb.n)] else [])
    + (if NameApplies(d, caller, body) then [SetName(body.deviceName.value)] else [])
  }

  /** The first problem with the body, once the caller may operate `d`. */
  function BodyError(d: DeviceRecord, caller: Caller, body: UpdateBody): Option<RequestError> {
    if body.volume.Num? && !InUnitRange(body.volume.n) then Some(VolumeRange)
    else if body.eq.Arr? && |body.eq.items| != BandCount then Some(BandCountWrong)
    else if body.eq.Arr? && FirstBadBand(body.eq.items).Some? then
      Some(BandRange(FirstBadBand(body.eq.items).value + 1))
    else if body.reverb.Num? && !InUnitRange(body.reverb.n) then Some(ReverbRange)
    else if NameApplies(d, caller, body) && |body.deviceName.value| > NameLimit then Some(LongName)
    else if FieldClauses(d, caller, body) == [] then Some(NoFields)
    else None
  }

  /** The answer to a request: the first failed check, or the clauses sent. */
  function Decide(deviceId: Option<string>, device: Option<DeviceRecord>, caller: Caller,
                  body: UpdateBody, now: string): Outcome
  {
    if !Present(deviceId) then Rejected(NoDeviceId)
    else if device.None? then Rejected(NoSuchDevice)
    else if !CanOperateDevice(device.value, caller) then Rejected(NotPermitted)
    else match BodyError(device.value, caller, body)
      case Some(e) => Rejected(e)
      case None =>
        Patched(FieldClauses(device.value, caller, body)
                + [SetUpdatedAt(now), SetStateUpdatedAt(now), BumpSyncVersion])
  }

  /** The handler itself, with `now` the time it reads and the device lookup
      already done. */
  method HandleUpdate(deviceId: Option<string>, device: Option<DeviceRecord>, caller: Caller,
                      body: UpdateBody, now: string) returns (out: Outcome)
    ensures out == Decide(deviceId, device, caller, body, now)
  {
    if !Present(deviceId) {
      return Rejected(NoDeviceId);
    }
    if device.None? {
      return Rejected(NoSuchDevice);
    }
    var d := device.value;
    if !CanOperateDevice(d, caller) {
      return Rejected(NotPermitted);
    }
    ghost var v: seq<SetClause> := if body.volume.Num? then [SetVolume(body.volume.n)] else [];
    ghost var e: seq<SetClause> := if body.eq.Arr? then [SetEq(Bands(body.eq.items))] else [];
    ghost var r: seq<SetClause> := if body.reverb.Num? then [SetReverb(body.reverb.n)] else [];
    var clauses: seq<SetClause> := [];
    if body.volume.Num? {
      if !InUnitRange(body.volume.n) {
        return Rejected(VolumeRange);
      }
      clauses := clauses + [SetVolume(body.volume.n)];
    }
    assert clauses == v;
    if body.eq.Arr? {
      var items := body.eq.items;
      if |items| != BandCount {
        return Rejected(BandCountWrong);
      }
      var bad := FindBadBand(items);
      if bad.Some? {
        return Rejected(BandRange(bad.value + 1));
      }
      clauses := clauses + [SetEq(Bands(items))];
    }
    assert clauses == v + e;
    assert body.eq.Arr? ==> |body.eq.items| == BandCount && FirstBadBand(body.eq.items) == None;
    if body.reverb.Num? {
      if !InUnitRange(body.reverb.n) {
        return Rejected(ReverbRange);
      }
      clauses := clauses + [SetReverb(body.reverb.n)];
    }
    assert clauses == v + e + r;
    if body.deviceName.Some? && body.deviceName.value != ""
       && (d.ownerId == caller.userId || caller.role == Admin)
    {
      if |body.deviceName.value| > NameLimit {
        return Rejected(LongName);
      }
      clauses := clauses + [SetName(body.deviceName.value)];
    }
    assert clauses == FieldClauses(d, caller, body);
    if clauses == [] {
      return Rejected(NoFields);
    }
    out := Patched(clauses + [SetUpdatedAt(now), SetStateUpdatedAt(now), BumpSyncVersion]);
  }

  // ---------------------------------------------------------------------
  // What the SET expression does to the stored device
  // ---------------------------------------------------------------------

  function ApplyClause(d: DeviceRecord, c: SetClause): DeviceRecord {
    match c
    case SetVolume(v) => d.(state := d.state.(volume := v))
    case SetEq(bands) => d.(state := d.state.(eq := bands))
    case SetReverb(r) => d.(state := d.state.(reverb := r))
    case SetName(n) => d.(name := n)
    case SetUpdatedAt(t) => d.(updatedAt := t)
    case SetStateUpdatedAt(t) => d.(state := d.state.(updatedAt := t))
    case BumpSyncVersion => d.(state := d.state.(syncVersion := d.state.syncVersion + 1))
  }

  function ApplyClauses(d: DeviceRecord, cs: seq<SetClause>): DeviceRecord
    decreases |cs|
  {
    if cs == [] then d else ApplyClauses(ApplyClause(d, cs[0]), cs[1..])
  }

  /** Clauses apply one after the other. */
  lemma {:induction false} ApplyAppend(d: DeviceRecord, a: seq<SetClause>, b: seq<SetClause>)
    ensures ApplyClauses(d, a + b) == ApplyClauses(ApplyClauses(d, a), b)
    decreases |a|
  {
    if a == [] {
      assert a + b == b;
    } else {
      assert (a + b)[0] == a[0];
      assert (a + b)[1..] == a[1..] + b;
      ApplyAppend(ApplyClause(d, a[0]), a[1..], b);
    }
  }

  /** The settings the request asks for, as a profile update. */
  function Requested(body: UpdateBody): AudioUpdate {
    AudioUpdate(
      if body.volume.Num? then Some(body.volume.n) else None,
      if body.eq.Arr? then Some(Bands(body.eq.items)) else None,
      if body.reverb.Num? then Some(body.reverb.n) else None,
      None)
  }

  // ---------------------------------------------------------------------
  // Properties
  // ---------------------------------------------------------------------

  /** The path, the device and the permission are checked before the body,
      in that order: when one of them fails, the body and the time make no
      difference. */
  lemma GatesFirst(deviceId: Option<string>, device: Option<DeviceRecord>, caller: Caller,
                   b1: UpdateBody, b2: UpdateBody, t1: string, t2: string)
    ensures !Present(deviceId) ==> Decide(deviceId, device, caller, b1, t1) == Rejected(NoDeviceId)
    ensures Present(deviceId) && device.None? ==>
              Decide(deviceId, device, caller, b1, t1) == Rejected(NoSuchDevice)
    ensures Present(deviceId) && device.Some? && !CanOperateDevice(device.value, caller) ==>
              Decide(deviceId, device, caller, b1, t1) == Rejected(NotPermitted)
    ensures !GatesPass(deviceId, device, caller) ==>
              Decide(deviceId, device, caller, b1, t1) == Decide(deviceId, device, caller, b2, t2)
  {
  }

  /** The body fields are checked in order: an out-of-range volume is
      reported even when other fields are also wrong. */
  lemma VolumeCheckedFirst(deviceId: Option<string>, device: Option<DeviceRecord>, caller: Caller,
                           body: UpdateBody, now: string)
    requires GatesPass(deviceId, device, caller)
    requires body.volume.Num? && !InUnitRange(body.volume.n)
    ensures Decide(deviceId, device, caller, body, now) == Rejected(VolumeRange)
  {
  }

  /** A bad equaliser band is reported by its 1-based position, and it is
      the first bad one. */
  lemma FirstBadBandReported(deviceId: Option<string>, device: Option<DeviceRecord>, caller: Caller,
                             body: UpdateBody, now: string, k: nat)
    requires GatesPass(deviceId, device, caller)
    requires body.volume.Num? ==> InUnitRange(body.volume.n)
    requires body.eq.Arr? && |body.eq.items| == BandCount
    requires k < BandCount && !IsBand(body.eq.items[k])
    requires forall i :: 0 <= i < k ==> IsBand(body.eq.items[i])
    ensures Decide(deviceId, device, caller, body, now) == Rejected(BandRange(k + 1))
  {
    var r := FirstBadBand(body.eq.items);
    assert r.Some?;
    assert !(r.value < k) && !(r.value > k);
  }

  /** A request is carried out exactly when the caller may operate the
      device, every supplied field is well formed and in range, and at
      least one field is supplied. */
  lemma PatchedExactly(deviceId: Option<string>, device: Option<DeviceRecord>, caller: Caller,
                       body: UpdateBody, now: string)
    ensures Decide(deviceId, device, caller, body, now).Patched? <==>
      && GatesPass(deviceId, device, caller)
      && (body.volume.Num? ==> InUnitRange(body.volume.n))
      && (body.eq.Arr? ==> |body.eq.items| == BandCount
                           && forall i :: 0 <= i < |body.eq.items| ==> IsBand(body.eq.items[i]))
      && (body.reverb.Num? ==> InUnitRange(body.reverb.n))
      && (Present(body.deviceName) ==> |body.deviceName.value| <= NameLimit)
      && (body.volume.Num? || body.eq.Arr? || body.reverb.Num? || Present(body.deviceName))
  {
  }

  /** Once the caller may operate the device, the extra owner-or-admin test
      on the name adds nothing: a supplied name is always written. */
  lemma NameGuardRedundant(d: DeviceRecord, caller: Caller, body: UpdateBody)
    requires CanOperateDevice(d, caller)
    ensures NameApplies(d, caller, body) <==> Present(body.deviceName)
  {
  }

  /** The clauses for the supplied fields write exactly those fields. */
  lemma FieldEffect(d: DeviceRecord, caller: Caller, body: UpdateBody)
    ensures ApplyClauses(d, FieldClauses(d, caller, body)) ==
      d.(name := if NameApplies(d, caller, body) then body.deviceName.value else d.name,
         state := d.state.(
           volume := if body.volume.Num? then body.volume.n else d.state.volume,
           eq := if body.eq.Arr? then Bands(body.eq.items) else d.state.eq,
           reverb := if body.reverb.Num? then body.reverb.n else d.state.reverb))
  {
    var s := SettingClauses(body);
    var n: seq<SetClause> := if NameApplies(d, caller, body) then [SetName(body.deviceName.value)] else [];
    assert FieldClauses(d, caller, body) == s + n;
    ApplyAppend(d, s, n);
    SettingsEffect(d, body);
    AtMostOne(ApplyClauses(d, s), n);
  }

  /** The volume, eq and reverb clauses of a body. */
  function SettingClauses(body: UpdateBody): seq<SetClause> {
    (if body.volume.Num? then [SetVolume(body.volume.n)] else [])
    + (if body.eq.Arr? then [SetEq(Bands(body.eq.items))] else [])
    + (if body.reverb.Num? then [SetReverb(body.reverb.n)] else [])
  }

  /** The setting clauses write exactly the supplied settings. */
  lemma SettingsEffect(x: DeviceRecord, body: UpdateBody)
    ensures ApplyClauses(x, SettingClauses(body)) ==
      x.(state := x.state.(
           volume := if body.volume.Num? then body.volume.n else x.state.volume,
           eq := if body.eq.Arr? then Bands(body.eq.items) else x.state.eq,
           reverb := if body.reverb.Num? then body.reverb.n else x.state.reverb))
  {
    var v: seq<SetClause> := if body.volume.Num? then [SetVolume(body.volume.n)] else [];
    var e: seq<SetClause> := if body.eq.Arr? then [SetEq(Bands(body.eq.items))] else [];
    var r: seq<SetClause> := if body.reverb.Num? then [SetReverb(body.reverb.n)] else [];
    ApplyAppend(x, v + e, r);
    ApplyAppend(x, v, e);
    AtMostOne(x, v);
    AtMostOne(ApplyClauses(x, v), e);
    AtMostOne(ApplyClauses(x, v + e), r);
  }

  /** No clause or a single clause. */
  lemma AtMostOne(x: DeviceRecord, cs: seq<SetClause>)
    requires |cs| <= 1
    ensures ApplyClauses(x, cs) == if cs == [] then x else ApplyClause(x, cs[0])
  {
    if cs != [] {
      assert cs[1..] == [];
    }
  }

  /** An accepted request leaves the device exactly as the device's own
      `updateState` would with the requested settings (the handler's strict
      checks mean the model's clamping never comes into play), with the
      supplied name, and nothing else changed. */
  lemma PatchEffect(deviceId: Option<string>, device: Option<DeviceRecord>, caller: Caller,
                    body: UpdateBody, now: string)
    requires Decide(deviceId, device, caller, body, now).Patched?
    ensures var d := device.value;
      ApplyClauses(d, Decide(deviceId, device, caller, body, now).clauses) ==
        StateUpdated(d, Requested(body), now).(
          name := if Present(body.deviceName) then body.deviceName.value else d.name)
  {
    var d := device.value;
    var f := FieldClauses(d, caller, body);
    var tail := [SetUpdatedAt(now), SetStateUpdatedAt(now), BumpSyncVersion];
    assert Decide(deviceId, device, caller, body, now).clauses == f + tail;
    FieldEffect(d, caller, body);
    ApplyAppend(d, f, tail);
    Bookkeeping(ApplyClauses(d, f), now);
    assert NameApplies(d, caller, body) <==> Present(body.deviceName);
    RequestedUpdate(d.state, body, now);
  }

  /** The three clauses every accepted request ends with stamp both times
      and raise the version. */
  lemma Bookkeeping(x: DeviceRecord, now: string)
    ensures ApplyClauses(x, [SetUpdatedAt(now), SetStateUpdatedAt(now), BumpSyncVersion])
         == x.(updatedAt := now, state := x.state.(updatedAt := now, syncVersion := x.state.syncVersion + 1))
  {
    var tail := [SetUpdatedAt(now), SetStateUpdatedAt(now), BumpSyncVersion];
    var x1 := ApplyClause(x, SetUpdatedAt(now));
    var x2 := ApplyClause(x1, SetStateUpdatedAt(now));
    var x3 := ApplyClause(x2, BumpSyncVersion);
    assert ApplyClauses(x3, []) == x3;
    assert ApplyClauses(x2, [BumpSyncVersion]) == x3;
    assert ApplyClauses(x1, [SetStateUpdatedAt(now), BumpSyncVersion]) == x3 by {
      assert [SetStateUpdatedAt(now), BumpSyncVersion][1..] == [BumpSyncVersion];
    }
    assert tail[1..] == [SetStateUpdatedAt(now), BumpSyncVersion];
  }

  /** For settings that passed the handler's checks, the profile's own
      update writes them unclamped. */
  lemma RequestedUpdate(p: Profile, body: UpdateBody, now: string)
    requires body.volume.Num? ==> InUnitRange(body.volume.n)
    requires body.eq.Arr? ==> |body.eq.items| == BandCount && FirstBadBand(body.eq.items) == None
    requires body.reverb.Num? ==> InUnitRange(body.reverb.n)
    ensures Updated(p, Requested(body), now) == p.(
      volume := if body.volume.Num? then body.volume.n else p.volume,
      eq := if body.eq.Arr? then Bands(body.eq.items) else p.eq,
      reverb := if body.reverb.Num? then body.reverb.n else p.reverb,
      updatedAt := now, syncVersion := p.syncVersion + 1)
  {
    if body.eq.Arr? {
      var b := Bands(body.eq.items);
      CheckedBandsInRange(body.eq.items);
      assert ClampBands(b) == b;
    }
  }

  /** An accepted request keeps a valid device valid, provided a supplied
      name is not all white space. */
  lemma PatchKeepsValidity(deviceId: Option<string>, device: Option<DeviceRecord>, caller: Caller,
                           body: UpdateBody, now: string)
    requires Decide(deviceId, device, caller, body, now).Patched?
    requires ValidDevice(device.value)
    requires Present(body.deviceName) ==> !IsBlank(body.deviceName.value)
    ensures ValidDevice(ApplyClauses(device.value, Decide(deviceId, device, caller, body, now).clauses))
  {
    PatchEffect(deviceId, device, caller, body, now);
    StateUpdateKeepsValidity(device.value, Requested(body), now);
  }

  /** A name of white space only is accepted and written, and the stored
      device then fails its own validation. */
  lemma BlankNameAccepted(deviceId: Option<string>, device: Option<DeviceRecord>, caller: Caller, now: string)
    requires GatesPass(deviceId, device, caller)
    ensures var body := UpdateBody(Missing, Missing, Missing, Some(" "));
      && Decide(deviceId, device, caller, body, now).Patched?
      && NameRequired in DeviceErrors(ApplyClauses(device.value, Decide(deviceId, device, caller, body, now).clauses))
  {
    var body := UpdateBody(Missing, Missing, Missing, Some(" "));
    PatchEffect(deviceId, device, caller, body, now);
    var q := ApplyClauses(device.value, Decide(deviceId, device, caller, body, now).clauses);
    assert q.name == " ";
    assert IsBlank(q.name) by {
      assert IsWhitespace(' ');
      assert Trim(" ") == "";
    }
    ReportsExactly(q, NameRequired);
  }
}
