/** The preset-creation request (POST /api/presets): it checks the name and
    the three settings of the body, refuses a public preset from anybody
    but an administrator, validates the preset it builds with the preset's
    own rules, refuses a name the caller has already used, and stores the
    preset.

    The table is not modelled: whether the name lookup finds an earlier
    preset is a parameter, and a created preset is the outcome rather than
    a stored item. */
module CreatePreset {
  import opened Common
  import opened AudioProfiles
  import opened Presets

  /** The fields of the request body the handler reads. The name, the
      description and the category are strings when present; `isPublic` is
      `None` when absent or null. */
  datatype CreateBody = CreateBody(
    name: Option<string>,
    volume: Json,
    eq: Json,
    reverb: Json,
    description: Option<string>,
    isPublic: Option<bool>,
    category: Option<string>)

  /** The reasons for refusing a request, in the order they are checked. */
  datatype CreateError =
    | NameMissing
    | VolumeBad
    | ReverbBad
    | EqBad
    | BandBad(band: nat)
    | PublicNotAllowed
    | Invalid(errors: seq<PresetError>)
    | NameTaken

  /** The HTTP status each refusal is answered with. */
  function Status(e: CreateError): (code: nat)
    ensures code == 403 <==> e == PublicNotAllowed
    ensures code == 409 <==> e == NameTaken
    ensures code == 400 || code == 403 || code == 409
  {
    match e
    case PublicNotAllowed => 403
    case NameTaken => 409
    case _ => 400
  }

  datatype CreateOutcome = Refused(error: CreateError) | Created(preset: PresetRecord)

  /** The category a request asks for: the supplied one, else "custom". */
  function RequestedCategory(body: CreateBody): (c: string)
    ensures c != ""
    ensures Present(body.category) ==> c == body.category.value
    ensures !Present(body.category) ==> c == "custom"
  {
    OrElse(body.category, "custom")
  }

  /** The object handed to the Preset constructor, as the handler builds it:
      the category is put under a key the constructor never reads, so it is
      lost. */
  function PayloadAsWritten(caller: Caller, body: CreateBody): PresetData
    requires body.name.Some?
  {
    PresetData(
      None, None, None,
      Some(Trim(body.name.value)),
      None,
      Some(ProfileData(
        if body.volume.Num? then Some(body.volume.n) else None,
        if body.eq.Arr? then Some(Bands(body.eq.items)) else None,
        if body.reverb.Num? then Some(body.reverb.n) else None,
        None, None, None)),
      Some(caller.userId),
      Some(caller.role),
      Some(body.isPublic.GetOr(false)),
      Some(if body.description.Some? then Trim(body.description.value) else ""),
      None, None, None, None)
  }

  /** The same object with the category under the key the constructor
      reads. */
  function Payload(caller: Caller, body: CreateBody): PresetData
    requires body.name.Some?
  {
    PayloadAsWritten(caller, body).(category := Some(RequestedCategory(body)))
  }

  /** Every preset created as written has an empty category, whatever the
      request asked for. */
  lemma CategoryLostAsWritten(caller: Caller, body: CreateBody, now: string, freshId: string)
    requires body.name.Some?
    ensures NewPreset(PayloadAsWritten(caller, body), now, freshId).category == ""
    ensures NewPreset(PayloadAsWritten(caller, body), now, freshId).category != RequestedCategory(body)
  {
  }

  /** With the key corrected, the preset keeps the requested category. */
  lemma CategoryKept(caller: Caller, body: CreateBody, now: string, freshId: string)
    requires body.name.Some?
    ensures NewPreset(Payload(caller, body), now, freshId).category == RequestedCategory(body)
  {
  }

  // ---------------------------------------------------------------------
  // What the handler decides
  // ---------------------------------------------------------------------

  /** The body's own checks pass: a name that is not blank, a volume and a
      reverb that are numbers in [0, 1], and five equaliser bands that are
      numbers in [-12, 12]. */
  predicate FieldsPass(body: CreateBody) {
    && Present(body.name) && !IsBlank(body.name.value)
    && body.volume.Num? && InUnitRange(body.volume.n)
    && body.reverb.Num? && InUnitRange(body.reverb.n)
    && body.eq.Arr? && |body.eq.items| == BandCount
    && FirstBadBand(body.eq.items) == None
  }

  /** The answer to a request, with `takenNames` the names of the caller's
      earlier presets that the lookup finds, `now` the time and `freshId` the
      uuid the constructor draws. */
  function Decide(caller: Caller, body: CreateBody, takenNames: set<string>, now: string, freshId: string): CreateOutcome {
    if !Present(body.name) || IsBlank(body.name.value) then Refused(NameMissing)
    else if !(body.volume.Num? && InUnitRange(body.volume.n)) then Refused(VolumeBad)
    else if !(body.reverb.Num? && InUnitRange(body.reverb.n)) then Refused(ReverbBad)
    else if !(body.eq.Arr? && |body.eq.items| == BandCount) then Refused(EqBad)
    else if FirstBadBand(body.eq.items).Some? then Refused(BandBad(FirstBadBand(body.eq.items).value + 1))
    else Finish(caller, body, takenNames, now, freshId)
  }

  /** The rest of the answer once the fields pass: the permission check,
      validation, and the name lookup, on the object as the handler builds
      it. */
  function Finish(caller: Caller, body: CreateBody, takenNames: set<string>, now: string, freshId: string): CreateOutcome
    requires body.name.Some?
  {
    FinishWith(PayloadAsWritten(caller, body), caller, takenNames, now, freshId)
  }

  /** The same steps on the object with the category under the key the
      constructor reads. */
  function FinishCorrected(caller: Caller, body: CreateBody, takenNames: set<string>, now: string, freshId: string): CreateOutcome
    requires body.name.Some?
  {
    FinishWith(Payload(caller, body), caller, takenNames, now, freshId)
  }

  /** The permission check, then validation and the name lookup on the
      preset built from a payload. */
  function FinishWith(data: PresetData, caller: Caller, takenNames: set<string>, now: string, freshId: string): CreateOutcome {
    if data.isPublic == Some(true) && caller.role != Admin then Refused(PublicNotAllowed)
    else Checked(NewPreset(data, now, freshId), takenNames)
  }

  /** Validation, then the name lookup. */
  function Checked(preset: PresetRecord, takenNames: set<string>): CreateOutcome {
    if PresetErrors(preset) != [] then Refused(Invalid(PresetErrors(preset)))
    else if preset.name in takenNames then Refused(NameTaken)
    else Created(preset)
  }

  /** With the key corrected, the handler answers every request as before,
      except that a created preset carries the requested category instead of
      an empty one. */
  lemma CorrectedKeepsCategory(caller: Caller, body: CreateBody, takenNames: set<string>, now: string, freshId: string)
    requires body.name.Some?
    ensures FinishCorrected(caller, body, takenNames, now, freshId).Refused? ==>
      FinishCorrected(caller, body, takenNames, now, freshId) == Finish(caller, body, takenNames, now, freshId)
    ensures FinishCorrected(caller, body, takenNames, now, freshId).Created? <==>
      Finish(caller, body, takenNames, now, freshId).Created?
    ensures FinishCorrected(caller, body, takenNames, now, freshId).Created? ==>
      && FinishCorrected(caller, body, takenNames, now, freshId).preset.category == RequestedCategory(body)
      && FinishCorrected(caller, body, takenNames, now, freshId).preset
         == Finish(caller, body, takenNames, now, freshId).preset.(category := RequestedCategory(body))
  {
    FinishIgnoresCategory(PayloadAsWritten(caller, body), RequestedCategory(body), caller, takenNames, now, freshId);
  }

  /** A non-empty category in the payload changes nothing but the category
      of the preset created. */
  lemma FinishIgnoresCategory(data: PresetData, c: string, caller: Caller, takenNames: set<string>, now: string, freshId: string)
    requires c != ""
    ensures FinishWith(data, caller, takenNames, now, freshId).Refused? ==>
      FinishWith(data.(category := Some(c)), caller, takenNames, now, freshId) == FinishWith(data, caller, takenNames, now, freshId)
    ensures FinishWith(data, caller, takenNames, now, freshId).Created? ==>
      FinishWith(data.(category := Some(c)), caller, takenNames, now, freshId)
        == Created(FinishWith(data, caller, takenNames, now, freshId).preset.(category := c))
  {
    var p := NewPreset(data, now, freshId);
    NewPresetCategory(data, c, now, freshId);
    CheckedIgnoresCategory(p, c, takenNames);
    if !(data.isPublic == Some(true) && caller.role != Admin) {
      assert FinishWith(data, caller, takenNames, now, freshId) == Checked(p, takenNames);
      assert FinishWith(data.(category := Some(c)), caller, takenNames, now, freshId)
          == Checked(p.(category := c), takenNames);
    }
  }

  /** Validation and the name lookup do not look at the category. */
  lemma CheckedIgnoresCategory(p: PresetRecord, c: string, takenNames: set<string>)
    ensures Checked(p, takenNames).Refused? ==> Checked(p.(category := c), takenNames) == Checked(p, takenNames)
    ensures Checked(p, takenNames).Created? ==> Checked(p.(category := c), takenNames) == Created(p.(category := c))
  {
    ErrorsIgnoreCategory(p, c);
  }

  /** The handler itself. */
  method HandleCreate(caller: Caller, body: CreateBody, takenNames: set<string>, now: string, freshId: string)
    returns (out: CreateOutcome)
    ensures out == Decide(caller, body, takenNames, now, freshId)
  {
    if body.name.None? || body.name.value == "" || Trim(body.name.value) == "" {
      return Refused(NameMissing);
    }
    if !body.volume.Num? || body.volume.n < 0.0 || body.volume.n > 1.0 {
      return Refused(VolumeBad);
    }
    if !body.reverb.Num? || body.reverb.n < 0.0 || body.reverb.n > 1.0 {
      return Refused(ReverbBad);
    }
    if !body.eq.Arr? || |body.eq.items| != BandCount {
      return Refused(EqBad);
    }
    var items := body.eq.items;
    var bad := FindBadBand(items);
    if bad.Some? {
      return Refused(BandBad(bad.value + 1));
    }
    ghost var finish := Finish(caller, body, takenNames, now, freshId);
    assert Decide(caller, body, takenNames, now, freshId) == finish;
    assert finish == FinishWith(PayloadAsWritten(caller, body), caller, takenNames, now, freshId);
    var data := PayloadAsWritten(caller, body);
    if data.isPublic == Some(true) && caller.role != Admin {
      return Refused(PublicNotAllowed);
    }
    var preset := NewPreset(data, now, freshId);
    var errors := PresetErrors(preset);
    if errors != [] {
      return Refused(Invalid(errors));
    }
    if preset.name in takenNames {
      return Refused(NameTaken);
    }
    out := Created(preset);
  }

  // ---------------------------------------------------------------------
  // Properties
  // ---------------------------------------------------------------------

  /** The preset built from a request whose fields pass: the category is
      lost on the way. */
  lemma BuiltPreset(caller: Caller, body: CreateBody, now: string, freshId: string)
    requires FieldsPass(body)
    ensures var p := NewPreset(PayloadAsWritten(caller, body), now, freshId);
      && p.name == Trim(body.name.value) && !IsBlank(p.name)
      && p.createdBy == caller.userId
      && p.creatorRole == (if caller.role == "" then StandardUser else caller.role)
      && (p.isPublic <==> body.isPublic == Some(true))
      && p.profile == Profile(body.volume.n, Bands(body.eq.items), body.reverb.n, None, now, 1)
      && IsValid(p.profile)
      && p.usageCount == 0
      && p.presetId == freshId && p.pk == KeyPrefix + freshId
      && p.category == ""
      && (now != "" && freshId != "" ==> PresetHydrated(p))
  {
    TrimmedNotBlank(body.name.value);
    CheckedBandsInRange(body.eq.items);
    var d := PayloadAsWritten(caller, body);
    var pd := ProfileData(Some(body.volume.n), Some(Bands(body.eq.items)), Some(body.reverb.n), None, None, None);
    assert d.pk == None && d.presetId == None && d.name == Some(Trim(body.name.value));
    assert d.profile == Some(pd);
    assert FromDynamo(pd, now) == Profile(body.volume.n, Bands(body.eq.items), body.reverb.n, None, now, 1);
  }

  /** The checks run in order, and the field checks come before the
      permission check, which comes before validation and the name lookup. */
  lemma ChecksInOrder(caller: Caller, body: CreateBody, takenNames: set<string>, now: string, freshId: string)
    ensures !Present(body.name) || IsBlank(body.name.value) ==>
              Decide(caller, body, takenNames, now, freshId) == Refused(NameMissing)
    ensures Present(body.name) && !IsBlank(body.name.value) && !(body.volume.Num? && InUnitRange(body.volume.n)) ==>
              Decide(caller, body, takenNames, now, freshId) == Refused(VolumeBad)
    ensures Present(body.name) && !IsBlank(body.name.value) && body.volume.Num? && InUnitRange(body.volume.n)
            && !(body.reverb.Num? && InUnitRange(body.reverb.n)) ==>
              Decide(caller, body, takenNames, now, freshId) == Refused(ReverbBad)
    ensures Present(body.name) && !IsBlank(body.name.value) && body.volume.Num? && InUnitRange(body.volume.n)
            && body.reverb.Num? && InUnitRange(body.reverb.n) && !(body.eq.Arr? && |body.eq.items| == BandCount) ==>
              Decide(caller, body, takenNames, now, freshId) == Refused(EqBad)
    ensures FieldsPass(body) && body.isPublic == Some(true) && caller.role != Admin ==>
              Decide(caller, body, takenNames, now, freshId) == Refused(PublicNotAllowed)
    ensures !FieldsPass(body) ==> Status(Decide(caller, body, takenNames, now, freshId).error) == 400
  {
  }

  /** Once the name, volume and reverb pass and five bands are given, a bad
      band is refused by its 1-based position, and it is the first bad one. */
  lemma FirstBadBandReported(caller: Caller, body: CreateBody, takenNames: set<string>, now: string, freshId: string, k: nat)
    requires Present(body.name) && !IsBlank(body.name.value)
    requires body.volume.Num? && InUnitRange(body.volume.n)
    requires body.reverb.Num? && InUnitRange(body.reverb.n)
    requires body.eq.Arr? && |body.eq.items| == BandCount
    requires k < BandCount && !IsBand(body.eq.items[k])
    requires forall i :: 0 <= i < k ==> IsBand(body.eq.items[i])
    ensures Decide(caller, body, takenNames, now, freshId) == Refused(BandBad(k + 1))
  {
    var r := FirstBadBand(body.eq.items);
    assert r.Some?;
    assert !(r.value < k) && !(r.value > k);
  }

  /** A request that would otherwise succeed is refused with 409 when the
      trimmed name is one the caller has already used. */
  lemma DuplicateNameRefused(caller: Caller, body: CreateBody, takenNames: set<string>, now: string, freshId: string)
    requires FieldsPass(body)
    requires !(body.isPublic == Some(true) && caller.role != Admin)
    requires ValidPreset(NewPreset(PayloadAsWritten(caller, body), now, freshId))
    requires Trim(body.name.value) in takenNames
    ensures Decide(caller, body, takenNames, now, freshId) == Refused(NameTaken)
  {
    var p := NewPreset(PayloadAsWritten(caller, body), now, freshId);
    assert Decide(caller, body, takenNames, now, freshId) == Checked(p, takenNames);
    BuiltPreset(caller, body, now, freshId);
  }

  /** Among requests whose fields pass, validation can only object to a
      trimmed name longer than 50 characters, a blank creator or an unknown
      role: the handler's own checks have already settled the rest. */
  lemma ValidationLeftovers(caller: Caller, body: CreateBody, takenNames: set<string>, now: string, freshId: string)
    requires FieldsPass(body)
    requires !(body.isPublic == Some(true) && caller.role != Admin)
    ensures var p := NewPreset(PayloadAsWritten(caller, body), now, freshId);
      forall e :: e in PresetErrors(p) <==>
        || (e == NameTooLong && |Trim(body.name.value)| > NameLimit)
        || (e == CreatorRequired && IsBlank(caller.userId))
        || (e == UnknownRole && !KnownRole(p.creatorRole))
  {
    var p := NewPreset(PayloadAsWritten(caller, body), now, freshId);
    BuiltPreset(caller, body, now, freshId);
    BandsValid(body, now);
    forall e: PresetError
      ensures e in PresetErrors(p) <==>
        || (e == NameTooLong && |Trim(body.name.value)| > NameLimit)
        || (e == CreatorRequired && IsBlank(caller.userId))
        || (e == UnknownRole && !KnownRole(p.creatorRole))
    {
      ReportsExactly(p, e);
      if e.InProfile? {
        assert ProfileErrors(p.profile) == [];
      }
    }
  }

  /** A profile built from checked fields has no errors. */
  lemma BandsValid(body: CreateBody, now: string)
    requires FieldsPass(body)
    ensures ProfileErrors(Profile(body.volume.n, Bands(body.eq.items), body.reverb.n, None, now, 1)) == []
  {
    CheckedBandsInRange(body.eq.items);
  }

  /** A request succeeds exactly when its fields pass, a public preset comes
      from an administrator, the trimmed name fits, the creator is not
      blank, the role is known and the name is new to the caller. */
  lemma CreatedExactly(caller: Caller, body: CreateBody, takenNames: set<string>, now: string, freshId: string)
    ensures Decide(caller, body, takenNames, now, freshId).Created? <==>
      && FieldsPass(body)
      && (body.isPublic == Some(true) ==> caller.role == Admin)
      && |Trim(body.name.value)| <= NameLimit
      && !IsBlank(caller.userId)
      && KnownRole(if caller.role == "" then StandardUser else caller.role)
      && Trim(body.name.value) !in takenNames
  {
    if FieldsPass(body) {
      assert Decide(caller, body, takenNames, now, freshId) == Finish(caller, body, takenNames, now, freshId);
      if !(body.isPublic == Some(true) && caller.role != Admin) {
        FinishCreatedExactly(caller, body, takenNames, now, freshId);
      }
    }
  }

  /** Once the fields and the permission check pass, a preset is created
      exactly when validation has nothing left to object to and the name is
      new. */
  lemma FinishCreatedExactly(caller: Caller, body: CreateBody, takenNames: set<string>, now: string, freshId: string)
    requires FieldsPass(body)
    requires !(body.isPublic == Some(true) && caller.role != Admin)
    ensures Finish(caller, body, takenNames, now, freshId).Created? <==>
      && |Trim(body.name.value)| <= NameLimit
      && !IsBlank(caller.userId)
      && KnownRole(if caller.role == "" then StandardUser else caller.role)
      && Trim(body.name.value) !in takenNames
  {
    var p := NewPreset(PayloadAsWritten(caller, body), now, freshId);
    assert Finish(caller, body, takenNames, now, freshId) == Checked(p, takenNames);
    NoErrorsExactly(caller, body, now, freshId);
    BuiltPreset(caller, body, now, freshId);
  }

  /** Once the fields and the permission check pass, validation finds
      nothing exactly when the name fits, the creator is not blank and the
      role is known. */
  lemma NoErrorsExactly(caller: Caller, body: CreateBody, now: string, freshId: string)
    requires FieldsPass(body)
    requires !(body.isPublic == Some(true) && caller.role != Admin)
    ensures PresetErrors(NewPreset(PayloadAsWritten(caller, body), now, freshId)) == [] <==>
      && |Trim(body.name.value)| <= NameLimit
      && !IsBlank(caller.userId)
      && KnownRole(if caller.role == "" then StandardUser else caller.role)
  {
    var p := NewPreset(PayloadAsWritten(caller, body), now, freshId);
    ValidationLeftovers(caller, body, {}, now, freshId);
    BuiltPreset(caller, body, now, freshId);
    if |Trim(body.name.value)| > NameLimit {
      assert NameTooLong in PresetErrors(p);
    } else if IsBlank(caller.userId) {
      assert CreatorRequired in PresetErrors(p);
    } else if !KnownRole(p.creatorRole) {
      assert UnknownRole in PresetErrors(p);
    }
  }

  /** Every created preset is valid, carries the request's settings and
      name, belongs to the caller, and is private unless the request asked
      otherwise; its category is empty, whatever the request asked for. */
  lemma CreatedIsValid(caller: Caller, body: CreateBody, takenNames: set<string>, now: string, freshId: string)
    requires Decide(caller, body, takenNames, now, freshId).Created?
    ensures var p := Decide(caller, body, takenNames, now, freshId).preset;
      && ValidPreset(p)
      && p.name == Trim(body.name.value)
      && p.createdBy == caller.userId
      && (body.isPublic != Some(true) ==> !p.isPublic)
      && p.profile.volume == body.volume.n && p.profile.reverb == body.reverb.n
      && p.profile.eq == Bands(body.eq.items)
      && p.category == ""
      && p.name !in takenNames
  {
    assert FieldsPass(body);
    var p := NewPreset(PayloadAsWritten(caller, body), now, freshId);
    assert Decide(caller, body, takenNames, now, freshId) == Finish(caller, body, takenNames, now, freshId);
    assert Finish(caller, body, takenNames, now, freshId) == Created(p);
    assert PresetErrors(p) == [];
    BuiltPreset(caller, body, now, freshId);
  }
}
