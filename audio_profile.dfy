/** The audio state value object shared by devices and presets: a volume, a
    five-band equaliser and a reverb level, with the id of the preset last
    applied, the time of the last change and a counter that every change
    raises so that clients can tell which copy is newer.

    Validation is strict (it reports every out-of-range value) while `update`
    is lenient (it clamps values into range instead of rejecting them). */
module AudioProfiles {
  import opened Common

  const DefaultVolume: real := 0.5
  const DefaultReverb: real := 0.3
  const DefaultEq: seq<real> := [0.0, 0.0, 0.0, 0.0, 0.0]
  const BandCount: nat := 5
  const BandMin: real := -12.0
  const BandMax: real := 12.0

  /** The fields of an AudioProfile object, which are also its stored form. */
  datatype Profile = Profile(
    volume: real,
    eq: seq<real>,
    reverb: real,
    lastPresetId: Option<string>,
    updatedAt: string,
    syncVersion: int)

  /** The plain object the constructor is given; `None` is a property that
      is absent or null. */
  datatype ProfileData = ProfileData(
    volume: Option<real>,
    eq: Option<seq<real>>,
    reverb: Option<real>,
    lastPresetId: Option<string>,
    updatedAt: Option<string>,
    syncVersion: Option<int>)

  /** The partial update accepted by `update`; `lastPresetId` is `Some(None)`
      when the caller sets it to null explicitly. */
  datatype AudioUpdate = AudioUpdate(
    volume: Option<real>,
    eq: Option<seq<real>>,
    reverb: Option<real>,
    lastPresetId: Option<Option<string>>)

  /** The client-facing view (`toFlutterFormat`). */
  datatype ClientProfile = ClientProfile(volume: real, eq: seq<real>, reverb: real, lastPresetId: Option<string>)

  /** The validation errors, in the order `validate` reports them. */
  datatype ProfileError =
    | VolumeOutOfRange
    | ReverbOutOfRange
    | WrongBandCount
    | BandOutOfRange(band: nat)  // 1-based band number

  predicate InUnitRange(x: real) {
    0.0 <= x <= 1.0
  }

  predicate InBandRange(x: real) {
    BandMin <= x <= BandMax
  }

  /** The ranges every valid profile keeps. */
  predicate IsValid(p: Profile) {
    && InUnitRange(p.volume)
    && InUnitRange(p.reverb)
    && |p.eq| == BandCount
    && forall i :: 0 <= i < |p.eq| ==> InBandRange(p.eq[i])
  }

  /** What the constructor guarantees of every object it builds: the
      falsy-to-default rules leave no empty preset id, no empty timestamp
      and no zero version behind. */
  predicate Hydrated(p: Profile) {
    p.lastPresetId != Some("") && p.updatedAt != "" && p.syncVersion != 0
  }

  // ---------------------------------------------------------------------
  // Construction
  // ---------------------------------------------------------------------

  /** `new AudioProfile(data)`, with `now` standing for the current time.
      Volume and reverb default only when absent (`??`), the equaliser when
      absent, the preset id, timestamp and version also when falsy (`||`). */
  function Hydrate(data: ProfileData, now: string): (p: Profile)
    ensures now != "" ==> Hydrated(p)
    ensures data.volume.Some? ==> p.volume == data.volume.value
    ensures data.eq.Some? ==> p.eq == data.eq.value
    ensures data.reverb.Some? ==> p.reverb == data.reverb.value
    ensures Present(data.lastPresetId) ==> p.lastPresetId == data.lastPresetId
  {
    Profile(
      data.volume.GetOr(DefaultVolume),
      data.eq.GetOr(DefaultEq),
      data.reverb.GetOr(DefaultReverb),
      if Present(data.lastPresetId) then data.lastPresetId else None,
      OrElse(data.updatedAt, now),
      OrElseInt(data.syncVersion, 1))
  }

  /** Every missing field takes its default, and a zero version becomes 1. */
  lemma ConstructorDefaults(now: string, version: Option<int>)
    requires version == None || version == Some(0)
    ensures Hydrate(ProfileData(None, None, None, None, None, version), now)
         == Profile(0.5, [0.0, 0.0, 0.0, 0.0, 0.0], 0.3, None, now, 1)
  {
  }

  /** The object `createDefault` hands to the constructor. */
  const DefaultData: ProfileData := ProfileData(Some(DefaultVolume), Some(DefaultEq), Some(DefaultReverb), None, None, None)

  /** `AudioProfile.createDefault()`. */
  function CreateDefault(now: string): (p: Profile)
    ensures p.volume == 0.5 && p.eq == [0.0, 0.0, 0.0, 0.0, 0.0] && p.reverb == 0.3
    ensures p.lastPresetId == None && p.syncVersion == 1 && p.updatedAt == now
    ensures IsValid(p)
  {
    Hydrate(DefaultData, now)
  }

  /** The object `fromPreset` hands to the constructor. */
  function PresetProfileData(preset: Profile, presetId: Option<string>, now: string): ProfileData {
    ProfileData(Some(preset.volume), Some(preset.eq), Some(preset.reverb), presetId, Some(now), Some(1))
  }

  /** `AudioProfile.fromPreset(presetProfile, presetId)`: a fresh profile with
      the preset's settings, the preset's id and version 1. */
  function FromPreset(preset: Profile, presetId: Option<string>, now: string): (p: Profile)
    ensures p.volume == preset.volume && p.eq == preset.eq && p.reverb == preset.reverb
    ensures p.lastPresetId == (if Present(presetId) then presetId else None)
    ensures p.syncVersion == 1 && p.updatedAt == now
    ensures IsValid(preset) ==> IsValid(p)
  {
    Hydrate(PresetProfileData(preset, presetId, now), now)
  }

  // ---------------------------------------------------------------------
  // Stored form
  // ---------------------------------------------------------------------

  /** `toDynamoFormat()`. */
  function ToDynamo(p: Profile): ProfileData {
    ProfileData(Some(p.volume), Some(p.eq), Some(p.reverb), p.lastPresetId, Some(p.updatedAt), Some(p.syncVersion))
  }

  /** The object `fromDynamoFormat` hands to the constructor: the stored
      attributes, with a falsy version already replaced by 1. */
  function DynamoData(data: ProfileData): ProfileData {
    data.(syncVersion := Some(OrElseInt(data.syncVersion, 1)))
  }

  /** `AudioProfile.fromDynamoFormat(data)`. */
  function FromDynamo(data: ProfileData, now: string): Profile {
    Hydrate(DynamoData(data), now)
  }

  /** Reading back a stored profile reproduces every field of it. */
  lemma RoundTrip(p: Profile, now: string)
    requires Hydrated(p)
    ensures FromDynamo(ToDynamo(p), now) == p
  {
  }

  /** `clone()` hands the constructor the same attributes as `toDynamoFormat`,
      so the constructor's defaults apply again: a hydrated profile comes back
      unchanged, but an empty preset id comes back as none, and the copy no
      longer `equals` its source. An update can set that empty id. */
  lemma CloneOfEmptyPresetId(p: Profile, now: string, later: string)
    ensures Hydrated(p) ==> Hydrate(ToDynamo(p), later) == p
    ensures var q := Updated(p, AudioUpdate(None, None, None, Some(Some(""))), now);
      q.lastPresetId == Some("") && Hydrate(ToDynamo(q), later).lastPresetId == None
      && !SameSettings(Hydrate(ToDynamo(q), later), q)
  {
  }

  /** `toFlutterFormat()`. */
  function ToClient(p: Profile): (c: ClientProfile)
    ensures c.volume == p.volume && c.eq == p.eq && c.reverb == p.reverb && c.lastPresetId == p.lastPresetId
  {
    ClientProfile(p.volume, p.eq, p.reverb, p.lastPresetId)
  }

  // ---------------------------------------------------------------------
  // Validation
  // ---------------------------------------------------------------------

  /** One error for each of the first `n` bands that is out of range, in band order. */
  function BandErrors(eq: seq<real>, n: nat): seq<ProfileError>
    requires n <= |eq|
  {
    if n == 0 then []
    else BandErrors(eq, n - 1) + (if InBandRange(eq[n - 1]) then [] else [BandOutOfRange(n)])
  }

  /** The band errors name, in increasing order, exactly the bands among the
      first `n` that are out of range. */
  lemma {:induction false} BandErrorsExact(eq: seq<real>, n: nat)
    requires n <= |eq|
    ensures forall i :: 0 <= i < |BandErrors(eq, n)| ==>
              BandErrors(eq, n)[i].BandOutOfRange? && 1 <= BandErrors(eq, n)[i].band <= n
              && !InBandRange(eq[BandErrors(eq, n)[i].band - 1])
    ensures forall i :: 0 <= i < n && !InBandRange(eq[i]) ==> BandOutOfRange(i + 1) in BandErrors(eq, n)
    ensures forall i, j :: 0 <= i < j < |BandErrors(eq, n)| ==> BandErrors(eq, n)[i].band < BandErrors(eq, n)[j].band
  {
    if n > 0 {
      BandErrorsExact(eq, n - 1);
      var prev := BandErrors(eq, n - 1);
      var errs := BandErrors(eq, n);
      assert errs == prev + (if InBandRange(eq[n - 1]) then [] else [BandOutOfRange(n)]);
      forall i | 0 <= i < n && !InBandRange(eq[i]) ensures BandOutOfRange(i + 1) in errs {
        if i < n - 1 {
          assert BandOutOfRange(i + 1) in prev;
        }
      }
    }
  }

  /** No band error is reported exactly when the first `n` bands are in range. */
  lemma BandErrorsEmpty(eq: seq<real>, n: nat)
    requires n <= |eq|
    ensures BandErrors(eq, n) == [] <==> forall i :: 0 <= i < n ==> InBandRange(eq[i])
  {
    BandErrorsExact(eq, n);
    var errs := BandErrors(eq, n);
    if errs != [] {
      assert !InBandRange(eq[errs[0].band - 1]);
    }
    if !(forall i :: 0 <= i < n ==> InBandRange(eq[i])) {
      var i :| 0 <= i < n && !InBandRange(eq[i]);
      assert BandOutOfRange(i + 1) in errs;
    }
  }

  /** The error list of `validate()`: it is empty exactly for valid profiles. */
  function ProfileErrors(p: Profile): (errs: seq<ProfileError>)
    ensures errs == [] <==> IsValid(p)
  {
    var head := (if InUnitRange(p.volume) then [] else [VolumeOutOfRange])
              + (if InUnitRange(p.reverb) then [] else [ReverbOutOfRange]);
    if |p.eq| != BandCount then
      head + [WrongBandCount]
    else
      BandErrorsEmpty(p.eq, BandCount);
      head + BandErrors(p.eq, BandCount)
  }

  /** `validate()` reports a band, by its 1-based number, exactly when the
      equaliser has five bands and that band is out of range; so it reports
      one error per offending band. */
  lemma ReportsEachBadBand(p: Profile, b: nat)
    ensures BandOutOfRange(b) in ProfileErrors(p) <==>
            |p.eq| == BandCount && 1 <= b <= BandCount && !InBandRange(p.eq[b - 1])
  {
    var errs := ProfileErrors(p);
    if |p.eq| == BandCount {
      var bands := BandErrors(p.eq, BandCount);
      BandErrorsExact(p.eq, BandCount);
      assert errs == (if InUnitRange(p.volume) then [] else [VolumeOutOfRange])
                   + (if InUnitRange(p.reverb) then [] else [ReverbOutOfRange]) + bands;
      if BandOutOfRange(b) in bands {
        var i :| 0 <= i < |bands| && bands[i] == BandOutOfRange(b);
      }
      if 1 <= b <= BandCount && !InBandRange(p.eq[b - 1]) {
        assert BandOutOfRange((b - 1) + 1) in bands;
      }
    }
  }

  /** `validate()` reports the volume, the reverb and the band count exactly
      when each is wrong. */
  lemma ReportsScalarErrors(p: Profile)
    ensures VolumeOutOfRange in ProfileErrors(p) <==> !InUnitRange(p.volume)
    ensures ReverbOutOfRange in ProfileErrors(p) <==> !InUnitRange(p.reverb)
    ensures WrongBandCount in ProfileErrors(p) <==> |p.eq| != BandCount
  {
    if |p.eq| == BandCount {
      var bands := BandErrors(p.eq, BandCount);
      BandErrorsExact(p.eq, BandCount);
      assert VolumeOutOfRange !in bands && ReverbOutOfRange !in bands && WrongBandCount !in bands;
    }
  }

  // ---------------------------------------------------------------------
  // Request bodies
  // ---------------------------------------------------------------------

  /** A band value a request may carry: a number in [-12, 12]. */
  predicate IsBand(j: Json) {
    j.Num? && InBandRange(j.n)
  }

  /** The index of the first band that is not a number in range, if any:
      what the handlers' loops over `body.eq` stop at. */
  function FirstBadBand(items: seq<Json>): (r: Option<nat>)
    ensures r.Some? ==> r.value < |items| && !IsBand(items[r.value])
    ensures r.Some? ==> forall i :: 0 <= i < r.value ==> IsBand(items[i])
    ensures r.None? <==> forall i :: 0 <= i < |items| ==> IsBand(items[i])
  {
    if items == [] then None
    else if !IsBand(items[0]) then Some(0)
    else
      var rest := FirstBadBand(items[1..]);
      assert forall i :: 1 <= i < |items| ==> items[i] == items[1..][i - 1];
      match rest
      case None => None
      case Some(k) => Some(k + 1)
  }

  /** The loop both request handlers run over `body.eq`: it stops at the
      first band that is not a number in [-12, 12]. */
  method FindBadBand(items: seq<Json>) returns (bad: Option<nat>)
    ensures bad == FirstBadBand(items)
  {
    for i := 0 to |items|
      invariant forall k :: 0 <= k < i ==> IsBand(items[k])
    {
      if !items[i].Num? || items[i].n < BandMin || items[i].n > BandMax {
        var r := FirstBadBand(items);
        assert r.Some? && !(r.value < i) && !(r.value > i);
        return Some(i);
      }
    }
    return None;
  }

  /** The numbers of an array of bands that are all numbers. */
  function Bands(items: seq<Json>): (r: seq<real>)
    ensures |r| == |items|
    ensures forall i :: 0 <= i < |items| && items[i].Num? ==> r[i] == items[i].n
  {
    seq(|items|, i requires 0 <= i < |items| => if items[i].Num? then items[i].n else 0.0)
  }

  /** Bands that all pass the check are all in range. */
  lemma CheckedBandsInRange(items: seq<Json>)
    requires FirstBadBand(items) == None
    ensures forall i :: 0 <= i < |items| ==> InBandRange(Bands(items)[i])
  {
  }

  // ---------------------------------------------------------------------
  // Changes
  // ---------------------------------------------------------------------

  /** Each band clamped into the equaliser range (`eq.map(...)`). */
  function ClampBands(eq: seq<real>): (r: seq<real>)
    ensures |r| == |eq|
    ensures forall i :: 0 <= i < |r| ==> InBandRange(r[i])
    ensures forall i :: 0 <= i < |r| && InBandRange(eq[i]) ==> r[i] == eq[i]
    ensures forall i :: 0 <= i < |r| && eq[i] < BandMin ==> r[i] == BandMin
    ensures forall i :: 0 <= i < |r| && eq[i] > BandMax ==> r[i] == BandMax
  {
    seq(|eq|, i requires 0 <= i < |eq| => Clamp(eq[i], BandMin, BandMax))
  }

  /** The state after `update(u)`: supplied volume and reverb are clamped
      into [0, 1], a supplied five-band equaliser into [-12, 12] band by band,
      an equaliser of another length is ignored, and the version rises by one
      whatever was supplied. A valid profile stays valid. */
  function Updated(p: Profile, u: AudioUpdate, now: string): (q: Profile)
    ensures q.syncVersion == p.syncVersion + 1 && q.updatedAt == now
    ensures u.volume.Some? ==> q.volume == Clamp(u.volume.value, 0.0, 1.0)
    ensures u.volume.None? ==> q.volume == p.volume
    ensures u.reverb.Some? ==> q.reverb == Clamp(u.reverb.value, 0.0, 1.0)
    ensures u.reverb.None? ==> q.reverb == p.reverb
    ensures u.eq.Some? && |u.eq.value| == BandCount ==> q.eq == ClampBands(u.eq.value)
    ensures !(u.eq.Some? && |u.eq.value| == BandCount) ==> q.eq == p.eq
    ensures q.lastPresetId == (if u.lastPresetId.Some? then u.lastPresetId.value else p.lastPresetId)
    ensures IsValid(p) ==> IsValid(q)
  {
    p.(volume := if u.volume.Some? then Clamp(u.volume.value, 0.0, 1.0) else p.volume,
       eq := if u.eq.Some? && |u.eq.value| == BandCount then ClampBands(u.eq.value) else p.eq,
       reverb := if u.reverb.Some? then Clamp(u.reverb.value, 0.0, 1.0) else p.reverb,
       lastPresetId := if u.lastPresetId.Some? then u.lastPresetId.value else p.lastPresetId,
       updatedAt := now,
       syncVersion := p.syncVersion + 1)
  }

  /** The state after `reset()`: the default settings, no preset, and still a
      new version. */
  function AfterReset(p: Profile, now: string): (q: Profile)
    ensures IsValid(q)
    ensures SameSettings(q, CreateDefault(now))
    ensures q.syncVersion == p.syncVersion + 1 && q.updatedAt == now
  {
    Profile(DefaultVolume, DefaultEq, DefaultReverb, None, now, p.syncVersion + 1)
  }

  /** `equals(other)`: the two agree on everything but the timestamp and the version. */
  predicate SameSettings(p: Profile, q: Profile)
    ensures SameSettings(p, q) <==> p.(updatedAt := q.updatedAt, syncVersion := q.syncVersion) == q
  {
    p.volume == q.volume && p.reverb == q.reverb && p.eq == q.eq && p.lastPresetId == q.lastPresetId
  }

  /** An update that supplies nothing changes only the version and the timestamp. */
  lemma EmptyUpdateKeepsSettings(p: Profile, now: string)
    ensures SameSettings(Updated(p, AudioUpdate(None, None, None, None), now), p)
    ensures Updated(p, AudioUpdate(None, None, None, None), now).syncVersion == p.syncVersion + 1
  {
  }

  /** Repeating an update changes the settings no further: clamping is idempotent. */
  lemma {:induction false} UpdateSettingsIdempotent(p: Profile, u: AudioUpdate, now: string, later: string)
    ensures SameSettings(Updated(Updated(p, u, now), u, later), Updated(p, u, now))
  {
    var q := Updated(p, u, now);
    var r := Updated(q, u, later);
    if u.eq.Some? && |u.eq.value| == BandCount {
      var c := ClampBands(u.eq.value);
      assert q.eq == c;
      assert ClampBands(c) == c;
    }
  }

  // ---------------------------------------------------------------------
  // The object
  // ---------------------------------------------------------------------

  class AudioProfile {
    var volume: real
    var eq: seq<real>
    var reverb: real
    var lastPresetId: Option<string>
    var updatedAt: string
    var syncVersion: int

    /** The object's fields as a value. */
    function Snapshot(): Profile
      reads this
    {
      Profile(volume, eq, reverb, lastPresetId, updatedAt, syncVersion)
    }

    /** `new AudioProfile(data)`. */
    constructor (data: ProfileData, now: string)
      ensures Snapshot() == Hydrate(data, now)
    {
      var p := Hydrate(data, now);
      volume, eq, reverb := p.volume, p.eq, p.reverb;
      lastPresetId, updatedAt, syncVersion := p.lastPresetId, p.updatedAt, p.syncVersion;
    }

    /** `validate()`: checks volume and reverb, then the band count or each band. */
    method Validate() returns (errors: seq<ProfileError>)
      ensures errors == ProfileErrors(Snapshot())
    {
      ghost var p := Snapshot();
      ghost var scalar := (if InUnitRange(p.volume) then [] else [VolumeOutOfRange])
                        + (if InUnitRange(p.reverb) then [] else [ReverbOutOfRange]);
      errors := [];
      if !InUnitRange(volume) {
        errors := errors + [VolumeOutOfRange];
      }
      if !InUnitRange(reverb) {
        errors := errors + [ReverbOutOfRange];
      }
      assert errors == scalar;
      if |eq| != BandCount {
        errors := errors + [WrongBandCount];
        assert ProfileErrors(p) == scalar + [WrongBandCount];
      } else {
        var head := errors;
        var i := 0;
        while i < |eq|
          invariant 0 <= i <= |eq|
          invariant errors == head + BandErrors(eq, i)
        {
          ghost var before := BandErrors(eq, i);
          assert BandErrors(eq, i + 1) == before + (if InBandRange(eq[i]) then [] else [BandOutOfRange(i + 1)]);
          if !InBandRange(eq[i]) {
            errors := errors + [BandOutOfRange(i + 1)];
            assert errors == head + (before + [BandOutOfRange(i + 1)]);
          }
          i := i + 1;
        }
        assert ProfileErrors(p) == scalar + BandErrors(p.eq, BandCount);
      }
    }

    /** `update(updates)`. */
    method Update(u: AudioUpdate, now: string)
      modifies this
      ensures Snapshot() == Updated(old(Snapshot()), u, now)
    {
      if u.volume.Some? {
        volume := Clamp(u.volume.value, 0.0, 1.0);
      }
      if u.eq.Some? && |u.eq.value| == BandCount {
        eq := ClampBands(u.eq.value);
      }
      if u.reverb.Some? {
        reverb := Clamp(u.reverb.value, 0.0, 1.0);
      }
      if u.lastPresetId.Some? {
        lastPresetId := u.lastPresetId.value;
      }
      updatedAt := now;
      syncVersion := syncVersion + 1;
    }

    /** `reset()`. */
    method Reset(now: string)
      modifies this
      ensures Snapshot() == AfterReset(old(Snapshot()), now)
    {
      volume, eq, reverb := DefaultVolume, DefaultEq, DefaultReverb;
      lastPresetId := None;
      updatedAt := now;
      syncVersion := syncVersion + 1;
    }

    /** `equals(other)`. */
    predicate Equals(other: AudioProfile)
      reads this, other
    {
      SameSettings(Snapshot(), other.Snapshot())
    }

    /** `clone()`: a new object built by the constructor from this one's
        attributes; it has the same fields and `equals` its source when this
        object is one the constructor could have built. */
    method Clone(now: string) returns (c: AudioProfile)
      ensures fresh(c)
      ensures c.Snapshot() == Hydrate(ToDynamo(Snapshot()), now)
      ensures Hydrated(Snapshot()) ==> c.Snapshot() == Snapshot() && c.Equals(this) && this.Equals(c)
    {
      c := new AudioProfile(ToDynamo(Snapshot()), now);
    }

    /** `toDynamoFormat()`. */
    function ToDynamoFormat(): ProfileData
      reads this
    {
      ToDynamo(Snapshot())
    }
  }
}
