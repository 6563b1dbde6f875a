# Audio device backend — verified model

This project models the core of a serverless backend for networked audio
devices. Users own devices. Every device carries an audio state: a volume in
[0, 1], a five-band equaliser with bands in [-12, 12] dB, and a reverb in
[0, 1]. It also carries the id of the preset last applied, a timestamp, and
a sync version that every change raises. Presets are named, shareable
copies of such a state. The visibility rule for presets: an administrator
sees every preset, a creator sees their own, and anybody sees a public one.
Only administrators may publish a preset.

The model has one Dafny module per source file:

- `common.dfy` (`Common`): the JavaScript idioms the sources rely on, written out.
  - `||` and `??` defaults.
  - `trim`, and `replace` of the first occurrence.
  - `Math.max`/`Math.min` clamping, and `filter`.
  - A tagged JSON value for request bodies.
  - The caller identity taken from the token claims.
- `audio_profile.dfy` (`AudioProfiles`), `preset.dfy` (`Presets`),
  `device.dfy` (`Devices`), `user.dfy` (`Users`): the four data models.
  - Each object's fields are one value, a record.
  - The pure operations are functions on records, with their properties proved as lemmas.
  - Each class keeps the object's fields and updates them in place. Every
    mutating method is proved to leave `Snapshot()` equal to the matching
    function of the old snapshot.
- `update_device.dfy`, `create_preset.dfy`, `get_presets.dfy`,
  `apply_preset.dfy`: the decision logic of four request handlers.
  - The table is not modelled. A lookup result is a parameter.
  - A handler's answer is a refusal carrying its HTTP status, or what it
    would write.
  - The two imperative handlers (device update and preset creation) are
    methods with their loops over the equaliser bands. Each is proved
    equal to a decision function, and the lemmas are about that function.

The time (`new Date().toISOString()`) and fresh uuids are parameters (`now`,
`freshId`). Dates in the preset listing are compared through a parameter
`at`, which parses a timestamp into milliseconds.

Where the code and the written description of the system disagree, the model
follows the code:

- The description promises 409 for a second preset with the same name. The
  name lookup in `lambda/presets/create-preset.js:119-141` queries the
  `GSI1PK` key `USER#<id>`, and preset items (`Presets.ToItem`) carry no
  such attribute. The model takes the names the lookup finds as an input
  (`takenNames`), and the 409 it proves holds only for names that input
  contains.
- The description says every public preset has an administrator creator.
  `update` can set `is_public` without that check
  (`Presets.UpdateCanPublishWithoutAdmin`). A stored item without
  `is_public` is also hydrated as public (`?? true`).
- `get-presets` reads the raw item and shows only `is_public === true`.
  So a stored preset without the flag is public to `canView` but hidden
  from the listing (`GetPresets.MissingFlagHidden`).
- The device-update request accepts a `deviceName` made only of white
  space, which the device's own validation rejects
  (`UpdateDevice.BlankNameAccepted`).
- The preset-creation handler passes the category under the key
  `category`, which the Preset constructor does not read. `HandleCreate`
  follows that code, so every preset it creates has an empty category
  (`CreatePreset.CategoryLostAsWritten`). The corrected payload is modelled
  beside it (`CreatePreset.FinishCorrected`). `CreatePreset.CorrectedKeepsCategory`
  proves that the correction changes only the created preset's category.
- `clone` runs the constructor again, so its `||` defaults apply a second
  time. A preset id that an update set to "" comes back as no preset id
  (`AudioProfiles.CloneOfEmptyPresetId`).

## Model

| member | source | states |
|---|---|---|
| Common.CallerFromClaims | audio_device_backend/lambda/devices/update-device.js:170-178 | The caller id is the `sub` claim when present, else "anonymous"; the role is the role claim when present, else "user"; neither is ever empty |
| AudioProfiles.Hydrate | audio_device_backend/shared/models/audio-profile.js:7-14 | Supplied volume, eq, reverb and a non-empty preset id are kept; with a non-empty clock the result has no empty preset id, no empty timestamp and no zero version |
| AudioProfiles.ConstructorDefaults | audio_device_backend/shared/models/audio-profile.js:7-14 | With nothing supplied (or version 0) the profile is volume 0.5, eq [0,0,0,0,0], reverb 0.3, no preset id, version 1 |
| AudioProfiles.CreateDefault | audio_device_backend/shared/models/audio-profile.js:174-180 | The default profile is volume 0.5, eq [0,0,0,0,0], reverb 0.3, no preset id, version 1, stamped now, and valid |
| AudioProfiles.FromPreset | audio_device_backend/shared/models/audio-profile.js:82-91 | Copies volume, eq and reverb, records the given preset id, version 1; a valid source gives a valid profile |
| AudioProfiles.RoundTrip | audio_device_backend/shared/models/audio-profile.js:56-105 | `fromDynamoFormat(toDynamoFormat(p))` reproduces every field of any profile the constructor could have built |
| AudioProfiles.ToClient | audio_device_backend/shared/models/audio-profile.js:70-77 | The client form carries the volume, eq, reverb and preset id unchanged |
| AudioProfiles.BandErrorsExact | audio_device_backend/shared/models/audio-profile.js:40-47 | The band loop reports exactly the out-of-range bands, by 1-based position, in increasing order |
| AudioProfiles.BandErrorsEmpty | audio_device_backend/shared/models/audio-profile.js:40-47 | The band loop reports nothing exactly when every band checked is in [-12, 12] |
| AudioProfiles.ProfileErrors | audio_device_backend/shared/models/audio-profile.js:19-51 | `validate` reports no error exactly when volume and reverb are in [0, 1] and there are five bands all in [-12, 12] |
| AudioProfiles.ReportsEachBadBand | audio_device_backend/shared/models/audio-profile.js:36-47 | Band b is reported exactly when there are five bands and band b is out of range |
| AudioProfiles.ReportsScalarErrors | audio_device_backend/shared/models/audio-profile.js:22-38 | The volume, reverb and band-count errors are reported exactly when their condition holds |
| AudioProfiles.AudioProfile.Validate | audio_device_backend/shared/models/audio-profile.js:19-51 | The loop over the bands returns exactly the error list of the specification, in order |
| AudioProfiles.FirstBadBand | audio_device_backend/lambda/devices/update-device.js:60-64 | The index found is the first band that is not a number in [-12, 12]; none is found exactly when every band is one |
| AudioProfiles.FindBadBand | audio_device_backend/lambda/devices/update-device.js:59-64 | The loop over the bands returns the index of the first band that is not a number in [-12, 12], or none |
| AudioProfiles.CheckedBandsInRange | audio_device_backend/lambda/presets/create-preset.js:40-44 | Bands that pass the request check are all in range |
| AudioProfiles.ClampBands | audio_device_backend/shared/models/audio-profile.js:113-116 | Each band is clamped into [-12, 12]: a band in range is kept, one below becomes -12, one above becomes 12 |
| AudioProfiles.Updated | audio_device_backend/shared/models/audio-profile.js:110-130 | A supplied volume or reverb becomes its clamp into [0, 1], a five-band eq becomes its band-by-band clamp, other eq lengths are ignored; absent fields are unchanged; a supplied preset id is set; the version rises by exactly 1; validity is preserved |
| AudioProfiles.AudioProfile.Update | audio_device_backend/shared/models/audio-profile.js:110-130 | The object's new fields are the update of its old fields |
| AudioProfiles.AfterReset | audio_device_backend/shared/models/audio-profile.js:135-143 | Reset gives the default settings with no preset id, a valid profile, and still raises the version by 1 |
| AudioProfiles.AudioProfile.Reset | audio_device_backend/shared/models/audio-profile.js:135-143 | The object's new fields are the reset of its old fields |
| AudioProfiles.SameSettings | audio_device_backend/shared/models/audio-profile.js:148-155 | `equals` holds exactly when the two profiles differ at most in timestamp and version |
| AudioProfiles.EmptyUpdateKeepsSettings | audio_device_backend/shared/models/audio-profile.js:110-130 | An update supplying nothing keeps the settings and still raises the version |
| AudioProfiles.UpdateSettingsIdempotent | audio_device_backend/shared/models/audio-profile.js:110-130 | Applying the same update twice gives the same settings as once |
| AudioProfiles.AudioProfile.Clone | audio_device_backend/shared/models/audio-profile.js:160-169 | The clone is a new object built by the constructor from the source's fields, so the defaults apply again; for a profile the constructor could have built it has the same fields and `equals` its source both ways |
| AudioProfiles.CloneOfEmptyPresetId | audio_device_backend/shared/models/audio-profile.js:160-169 | Cloning reproduces any profile the constructor could have built, but a profile whose preset id an update set to "" comes back with no preset id and no longer `equals` its source |
| AudioProfiles.AudioProfile.constructor | audio_device_backend/shared/models/audio-profile.js:7-14 | The new object's fields are the constructor's defaults applied to the data |
| Presets.NewPreset | audio_device_backend/shared/models/preset.js:10-25 | The key is `PRESET#` + id, and the id is recovered from the key when it is absent; `is_public` defaults to true; the role defaults to user; the usage count defaults to 0; no profile gives the default profile |
| Presets.NewPresetCategory | audio_device_backend/shared/models/preset.js:16 | A non-empty `preset_category` in the data changes nothing in the built preset but its category |
| Presets.RoundTrip | audio_device_backend/shared/models/preset.js:108-177 | Reading back a stored preset reproduces it |
| Presets.PresetErrors | audio_device_backend/shared/models/preset.js:30-64 | `validate` reports nothing exactly for a valid preset |
| Presets.ErrorsIgnoreCategory | audio_device_backend/shared/models/preset.js:30-64 | `validate` does not depend on the category |
| Presets.ReportsExactly | audio_device_backend/shared/models/preset.js:30-64 | Each error is reported exactly when its condition holds; the profile's errors are spliced in as the profile reports them |
| Presets.PublicImpliesAdmin | audio_device_backend/shared/models/preset.js:55-58 | A valid public preset has an administrator creator |
| Presets.VisibilityAgrees | audio_device_backend/shared/models/preset.js:72-90 | `canUserView`, `canView` and `canUse` agree, and deny exactly a non-admin non-creator on a private preset (`canView` and `canUse` are at preset.js lines 217-227) |
| Presets.ManageImpliesView | audio_device_backend/shared/models/preset.js:209-220 | Whoever may manage a preset may view it, and viewing without managing means the preset is public |
| Presets.CreateGateMatchesValidate | audio_device_backend/shared/models/preset.js:98-103 | `canCreatePublicPreset` holds exactly when the preset is private or the role is admin, which is exactly when validation does not report the public rule |
| Presets.UpdateChanges | audio_device_backend/shared/models/preset.js:182-195 | Name and category change only to supplied non-empty values; a supplied description and `is_public` are set as given; a supplied profile update makes the profile the profile's own update of the old one (version + 1), none leaves it as it was; only these and the timestamp change |
| Presets.Preset.Update | audio_device_backend/shared/models/preset.js:182-195 | The object's new fields are the update of its old ones, with the same profile object updated in place |
| Presets.Preset.SetDetails | audio_device_backend/shared/models/preset.js:183-186 | Name, category, description and public flag are set as the update says, and the profile object is untouched |
| Presets.UpdateKeepsValidity | audio_device_backend/shared/models/preset.js:182-195 | An update with a good name that publishes only for an admin creator keeps a preset valid |
| Presets.UpdateCanPublishWithoutAdmin | audio_device_backend/shared/models/preset.js:186 | `update` can make a standard user's valid preset public and so invalid |
| Presets.Used | audio_device_backend/shared/models/preset.js:200-204 | The usage count rises by exactly 1, and only the timestamp changes besides |
| Presets.Preset.IncrementUsage | audio_device_backend/shared/models/preset.js:200-204 | The object's new fields are those of the used preset |
| Presets.UseKeepsAccess | audio_device_backend/shared/models/preset.js:200-227 | Using a preset changes neither its validity nor who may view or manage it |
| Presets.FilterByCategory | audio_device_backend/shared/models/preset.js:317-322 | No category or "all" returns the input; otherwise the result is the order-preserving sub-list of the matching presets, each kept as many times as it occurs |
| Presets.GetUsageSummary | audio_device_backend/shared/models/preset.js:327-337 | A preset is popular exactly when used more than 10 times |
| Presets.PopularStaysPopular | audio_device_backend/shared/models/preset.js:327-337 | A popular preset stays popular however often it is used again (`incrementUsage`, preset.js lines 200-204) |
| Presets.ToApiResponse | audio_device_backend/shared/models/preset.js:130-144 | The response carries the preset's id, name, category, creator and role, public flag, description, usage count, both timestamps, and the profile's volume, eq, reverb and preset id unchanged |
| Presets.Preset.constructor | audio_device_backend/shared/models/preset.js:10-25 | The new object's fields are the constructor's result, with a new profile object |
| Devices.NewDevice | audio_device_backend/shared/models/device.js:10-23 | The key is `DEVICE#` + id; an empty name becomes "Default Audio Device"; only a supplied `true` makes the device online; no state gives the default profile |
| Devices.RoundTrip | audio_device_backend/shared/models/device.js:66-128 | Reading back a stored device with a non-empty name reproduces it |
| Devices.EmptyNameComesBackDefault | audio_device_backend/shared/models/device.js:14 | A device with an empty name does not survive the round trip: it comes back with the default name |
| Devices.DeviceErrors | audio_device_backend/shared/models/device.js:28-61 | `validate` reports nothing exactly for a valid device |
| Devices.ReportsExactly | audio_device_backend/shared/models/device.js:28-61 | Each error is reported exactly when its condition holds; the state's errors appear as the state reports them |
| Devices.InfoUpdateChanges | audio_device_backend/shared/models/device.js:133-144 | The name becomes its trimmed form when that is not empty and is then not blank, a supplied model is trimmed, the timestamp is now, and nothing else changes |
| Devices.Device.UpdateInfo | audio_device_backend/shared/models/device.js:133-144 | The object's new fields are the info update of its old ones |
| Devices.InfoUpdateKeepsValidity | audio_device_backend/shared/models/device.js:133-144 | An info update within the length limits keeps a device valid |
| Devices.StateUpdated | audio_device_backend/shared/models/device.js:149-153 | The state is updated by the profile's own rule, its version rises by 1, the metadata is untouched |
| Devices.Device.UpdateState | audio_device_backend/shared/models/device.js:149-153 | The state object is updated in place and the device's fields follow the state update |
| Devices.StateUpdateKeepsValidity | audio_device_backend/shared/models/device.js:149-153 | A state update never makes a valid device invalid |
| Devices.AppliedPreset | audio_device_backend/shared/models/device.js:158-163 | The new state has the preset's settings at version 1 and its id, or no preset id when that id is empty; nothing else but the timestamp changes |
| Devices.Device.ApplyPreset | audio_device_backend/shared/models/device.js:158-163 | The device gets a new state object holding the applied preset |
| Devices.ApplyPresetOverwrites | audio_device_backend/shared/models/device.js:158-163 | The new state does not depend on the old one; a valid preset on a valid device gives a valid device |
| Devices.Online | audio_device_backend/shared/models/device.js:168-173 | The device is online with `last_seen` and `updated_at` both now, nothing else changed |
| Devices.Device.SetOnline | audio_device_backend/shared/models/device.js:168-173 | The object's new fields are those of the online device |
| Devices.Offline | audio_device_backend/shared/models/device.js:178-182 | The device is offline, `last_seen` unchanged, nothing else changed but the timestamp |
| Devices.Device.SetOffline | audio_device_backend/shared/models/device.js:178-182 | The object's new fields are those of the offline device |
| Devices.OnlineThenOffline | audio_device_backend/shared/models/device.js:168-182 | Going online then offline leaves the device offline, last seen at the online time, and as valid as before |
| Devices.ManageRule | audio_device_backend/shared/models/device.js:187-196 | The owner and any administrator may manage a device, nobody else |
| Devices.Device.constructor | audio_device_backend/shared/models/device.js:10-23 | The new object's fields are the constructor's result, with a new state object |
| Users.NewPreferences | audio_device_backend/shared/models/user.js:21-34 | Each preference is the supplied value when present, else theme "dark", language "en-US", quality "high", volume 0.7; each notification flag and auto-EQ are on unless supplied as false |
| Users.NewStats | audio_device_backend/shared/models/user.js:45-51 | Login, device and preset counts and session time are the supplied values or 0, a missing last login stays null |
| Users.NewUser | audio_device_backend/shared/models/user.js:9-58 | The key is the supplied one, else `USER#` + id, the id is a fresh one when neither is given; role defaults to user, status to active, both verification flags to false; preferences and stats are built by their own defaults; the three timestamps default to now |
| Users.UserIdFromKey | audio_device_backend/shared/models/user.js:10-13 | Without a user id, the id is the key with `USER#` removed |
| Users.EmailFromParts | audio_device_backend/shared/models/user.js:100-103 | Any `local@domain.tld` made of non-empty parts without white space or `@` is a valid email |
| Users.ValidEmailShape | audio_device_backend/shared/models/user.js:100-103 | A valid email has no white space and exactly one `@`, neither first nor last |
| Users.EmailCounterexamples | audio_device_backend/shared/models/user.js:100-103 | "a@b.c" is accepted; two `@`, a space, or no dot after the `@` are rejected |
| Users.UserErrors | audio_device_backend/shared/models/user.js:63-95 | `validate` reports nothing exactly for a valid user, and each error exactly when its condition holds |
| Users.IndexKeysDerivation | audio_device_backend/shared/models/user.js:131-137 | The email index key identifies the email, the role key identifies the role and is `ROLE#admin` exactly for admins, the role sort key is the user id |
| Users.ToApiResponse | audio_device_backend/shared/models/user.js:144-182 | The private part is present exactly when asked for and then carries the email, phone, preferences, both verification flags and the update time unchanged; the public part carries the id and role |
| Users.PublicResponseHidesPrivate | audio_device_backend/shared/models/user.js:144-182 | The public response does not depend on email, phone, preferences, verification flags or private stats |
| Users.MergePreferences | audio_device_backend/shared/models/user.js:262-264 | Key by key, a supplied preference overwrites the old one and an absent one keeps it; an empty patch changes nothing |
| Users.MergeProfile | audio_device_backend/shared/models/user.js:262-264 | Key by key, a supplied profile field overwrites the old one and an absent one keeps it; an empty patch changes nothing |
| Users.AllowListFrame | audio_device_backend/shared/models/user.js:254-271 | The loop over the allow-list touches only full name, avatar, phone, preferences and profile |
| Users.UpdateEffect | audio_device_backend/shared/models/user.js:254-271 | `update` sets the supplied allowed fields, merges preferences and profile, stamps the time, and leaves role, email, status and stats alone |
| Users.User.Update | audio_device_backend/shared/models/user.js:254-271 | The allow-list loop leaves the object's fields equal to the update of the old ones |
| Users.User.SetAllowed | audio_device_backend/shared/models/user.js:259-267 | One step of the allow-list loop: the object's new fields are the old ones with that one field copied or merged |
| Users.UpdateKeepsValidity | audio_device_backend/shared/models/user.js:254-271 | An update with a non-blank name and an in-range default volume keeps a user valid |
| Users.MergeStats | audio_device_backend/shared/models/user.js:276-280 | Exactly the supplied stat keys are overwritten |
| Users.MergeStatsIdempotent | audio_device_backend/shared/models/user.js:276-280 | Merging the same stats twice is merging once |
| Users.StatsUpdated | audio_device_backend/shared/models/user.js:276-280 | Only the stats and the timestamp change |
| Users.User.UpdateStats | audio_device_backend/shared/models/user.js:276-280 | The object's new fields are the stats update of the old ones |
| Users.LastActive | audio_device_backend/shared/models/user.js:285-290 | The login count rises by exactly 1, last login and last active become now, nothing else changes |
| Users.User.UpdateLastActive | audio_device_backend/shared/models/user.js:285-290 | The object's new fields are those of the last-active update |
| Users.LastActiveKeepsValidity | audio_device_backend/shared/models/user.js:285-297 | Recording activity changes neither validity nor admin status |
| Users.ChangesKeepRoleAndStatus | audio_device_backend/shared/models/user.js:254-304 | `update`, `updateStats` and `updateLastActive` leave `isAdmin` and `isActive` unchanged |
| Users.User.constructor | audio_device_backend/shared/models/user.js:9-58 | The new object's fields are the constructor's result |
| UpdateDevice.OperateIsManage | audio_device_backend/lambda/devices/update-device.js:162-165 | `canOperateDevice` holds exactly when the caller is an admin or the owner, the device's own `canManage` |
| UpdateDevice.Status | audio_device_backend/lambda/devices/update-device.js:21-92 | A missing device is 404, a forbidden caller 403, every other refusal 400 |
| UpdateDevice.HandleUpdate | audio_device_backend/lambda/devices/update-device.js:21-100 | The handler, with its loop over the bands, returns exactly the decision of the specification |
| UpdateDevice.GatesFirst | audio_device_backend/lambda/devices/update-device.js:21-36 | Missing id gives 400, missing device 404, non-owner non-admin 403, and when one of these fails the body makes no difference |
| UpdateDevice.VolumeCheckedFirst | audio_device_backend/lambda/devices/update-device.js:45-48 | A numeric volume outside [0, 1] is refused before anything else in the body |
| UpdateDevice.FirstBadBandReported | audio_device_backend/lambda/devices/update-device.js:55-64 | With five bands, the first band that is not a number in range is refused by its 1-based position |
| UpdateDevice.PatchedExactly | audio_device_backend/lambda/devices/update-device.js:21-100 | A patch is produced exactly when the caller may operate the device, every supplied field is well formed and in range, the name fits 50, and something is supplied |
| UpdateDevice.NameGuardRedundant | audio_device_backend/lambda/devices/update-device.js:82 | Once the caller passed the operate check, the name's own owner-or-admin test always holds |
| UpdateDevice.FieldEffect | audio_device_backend/lambda/devices/update-device.js:44-88 | The clauses for the supplied fields write exactly those fields |
| UpdateDevice.SettingsEffect | audio_device_backend/lambda/devices/update-device.js:44-78 | The volume, eq and reverb clauses write exactly the supplied settings into the state |
| UpdateDevice.Bookkeeping | audio_device_backend/lambda/devices/update-device.js:94-97 | The closing clauses set both timestamps to now and raise the sync version by 1 |
| UpdateDevice.RequestedUpdate | audio_device_backend/lambda/devices/update-device.js:44-78 | For settings that passed the handler's checks, the profile's own update writes them unclamped, stamps the time and raises the version by 1 |
| UpdateDevice.PatchEffect | audio_device_backend/lambda/devices/update-device.js:44-100 | An accepted patch leaves the device as the profile's own update of the requested settings would (clamping never applies), with the supplied name, both timestamps now, version + 1, nothing else changed |
| UpdateDevice.PatchKeepsValidity | audio_device_backend/lambda/devices/update-device.js:44-100 | An accepted patch keeps a valid device valid when any supplied name is not blank |
| UpdateDevice.BlankNameAccepted | audio_device_backend/lambda/devices/update-device.js:82-88 | A name of white space only is accepted and written, and the device then fails its own validation |
| CreatePreset.Status | audio_device_backend/lambda/presets/create-preset.js:23-84 | The permission refusal is 403, the duplicate name 409, every other refusal 400 |
| CreatePreset.RequestedCategory | audio_device_backend/lambda/presets/create-preset.js:58 | The requested category is the supplied non-empty one, else "custom" |
| CreatePreset.CategoryLostAsWritten | audio_device_backend/lambda/presets/create-preset.js:47-59 | As written, every created preset has an empty category, whatever was requested |
| CreatePreset.CategoryKept | audio_device_backend/lambda/presets/create-preset.js:47-59 | With the corrected key, the preset keeps the requested category |
| CreatePreset.CorrectedKeepsCategory | audio_device_backend/lambda/presets/create-preset.js:47-101 | With the corrected key the handler refuses exactly the same requests with the same answers, and creates the same preset except that it carries the requested category |
| CreatePreset.FinishIgnoresCategory | audio_device_backend/lambda/presets/create-preset.js:47-101 | A non-empty category in the payload leaves every refusal as it was and changes only the category of a created preset |
| CreatePreset.CheckedIgnoresCategory | audio_device_backend/lambda/presets/create-preset.js:69-84 | Validation and the name lookup give the same answer whatever the category |
| CreatePreset.HandleCreate | audio_device_backend/lambda/presets/create-preset.js:17-101 | The handler as written, with its loop over the bands and the category under the key the constructor ignores, returns exactly the decision of the specification |
| CreatePreset.BuiltPreset | audio_device_backend/lambda/presets/create-preset.js:47-69 | The preset built as written stores the trimmed name, the caller as creator, public only when asked (default private), the requested settings at version 1, usage 0, a fresh id and key, and an empty category |
| CreatePreset.ChecksInOrder | audio_device_backend/lambda/presets/create-preset.js:23-67 | Blank name is refused first, then a bad volume, then a bad reverb, then an eq that is not five bands; a public request from a non-admin with good fields is 403; every field failure is 400 |
| CreatePreset.FirstBadBandReported | audio_device_backend/lambda/presets/create-preset.js:40-44 | Once name, volume, reverb and the band count pass, the first band that is not a number in [-12, 12] is refused by its 1-based position |
| CreatePreset.DuplicateNameRefused | audio_device_backend/lambda/presets/create-preset.js:80-84 | An otherwise good request whose trimmed name the caller already used gives 409 |
| CreatePreset.BandsValid | audio_device_backend/lambda/presets/create-preset.js:27-44 | A body whose fields pass the handler's checks gives a profile `validate` finds nothing wrong with |
| CreatePreset.ValidationLeftovers | audio_device_backend/lambda/presets/create-preset.js:69-78 | After the handler's own checks, validation can only report a name over 50 characters, a blank creator or an unknown role, each exactly when it holds |
| CreatePreset.CreatedExactly | audio_device_backend/lambda/presets/create-preset.js:17-101 | A preset is created exactly when the fields pass, a public preset comes from an admin, the name fits, the creator is not blank, the role is known and the name is new |
| CreatePreset.FinishCreatedExactly | audio_device_backend/lambda/presets/create-preset.js:69-101 | Once the fields and the public rule pass, a preset is created exactly when the name fits 50, the creator is not blank, the role is known and the name is new |
| CreatePreset.NoErrorsExactly | audio_device_backend/lambda/presets/create-preset.js:69-78 | Once the fields and the public rule pass, validation finds nothing exactly when the name fits 50, the creator is not blank and the role is known |
| CreatePreset.CreatedIsValid | audio_device_backend/lambda/presets/create-preset.js:69-101 | Every created preset is valid, carries the request's trimmed name and settings, belongs to the caller, is private unless asked, has a new name, and, as written, an empty category |
| GetPresets.AccessRule | audio_device_backend/lambda/presets/get-presets.js:74-98 | An item is listed exactly when it is in device scope and the caller is admin, its creator, or it is marked public |
| GetPresets.PresetsForUser | audio_device_backend/lambda/presets/get-presets.js:60-101 | The result is an order-preserving subsequence of the items holding exactly the accessible ones, each as many times as it occurs |
| GetPresets.AdminSeesAllInScope | audio_device_backend/lambda/presets/get-presets.js:81-83 | An administrator gets every item in device scope |
| GetPresets.ListingAgreesWithCanView | audio_device_backend/lambda/presets/get-presets.js:80-97 | For items carrying `is_public`, the listing filter and the preset's `canView` agree |
| GetPresets.MissingFlagHidden | audio_device_backend/lambda/presets/get-presets.js:92 | An item without `is_public` is hidden from a standard non-creator, though `canView` allows it |
| GetPresets.Insert | audio_device_backend/lambda/presets/get-presets.js:36 | Inserting into a newest-first list keeps it newest first and adds exactly the one preset |
| GetPresets.SortNewestFirst | audio_device_backend/lambda/presets/get-presets.js:36 | The sort orders by creation time, newest first, and is a permutation |
| GetPresets.Responses | audio_device_backend/lambda/presets/get-presets.js:33-35 | Each item is hydrated and turned into its API form, position by position |
| GetPresets.ListPresets | audio_device_backend/lambda/presets/get-presets.js:30-46 | The list is the accessible presets, newest first, and `count` is its length |
| GetPresets.ListedExactly | audio_device_backend/lambda/presets/get-presets.js:30-46 | Every accessible item is listed, and every listed preset comes from an accessible item |
| ApplyPreset.Status | audio_device_backend/lambda/presets/apply-preset.js:23-58 | Missing device or preset is 404, a forbidden device or preset 403, other refusals 400 |
| ApplyPreset.HydrationDropsDeviceId | audio_device_backend/shared/models/preset.js:10-25 | Hydrating a stored preset forgets its device id: items that differ only there give the same Preset object |
| ApplyPreset.AsWrittenNeverProceeds | audio_device_backend/lambda/presets/apply-preset.js:23-58 | As written, no request passes the guards: every one reaching the device check is refused with 400 |
| ApplyPreset.AgreeBeforeDeviceCheck | audio_device_backend/lambda/presets/apply-preset.js:23-53 | The corrected guards refuse exactly as written up to the device check |
| ApplyPreset.ChecksInOrder | audio_device_backend/lambda/presets/apply-preset.js:23-58 | Missing device id, then missing preset id, give 400 whatever the lookups found; then missing device 404, then not operable 403 whatever the preset; then missing preset 404, a preset tied to another device 400, and a preset the caller may not view 403 |
| ApplyPreset.ProceedExactly | audio_device_backend/lambda/presets/apply-preset.js:23-58 | The corrected guards pass exactly when both ids are given, the caller may operate the device, the preset exists, is not tied to another device and is visible |
| ApplyPreset.ApplicableIsListed | audio_device_backend/lambda/presets/apply-preset.js:51-58 | A preset that passes the guards for a device is one the listing for that device shows the caller, when the stored item carries `is_public` and the caller id is not empty (an item without the flag can pass the guards yet be hidden, see `GetPresets.MissingFlagHidden`) |
| ApplyPreset.ProceedApplies | audio_device_backend/shared/models/device.js:158-163 | Applying a preset that passed gives the device its settings at version 1, keeps the owner, and keeps validity |

## Left out

- The table and the identity service are not modelled: every Get, Put, Update, Query and Scan call, the Cognito calls, the write after the apply-preset guards, and the usage log. A lookup's result is an input. The 500 answers for failures of these calls are not modelled either.
- Response message texts and headers are left out; a refusal is a datatype whose HTTP status `Status` gives.
- JSON parse failures, a non-string `name`/`deviceName`/`description`, and a non-boolean `is_public` are left out: these fields are `Option<string>` or `Option<bool>`. Other wrong JSON types are modelled as the handlers skip or refuse them.
- String lengths count code points, not UTF-16 units.
- `null` sent as an update value, explicit `undefined` values in spreads, and partially supplied nested objects (a `notifications` with only some keys) are not modelled. A patch field is either absent or complete.
- `AudioProfile.update` clamps each eq element with `Math.max`/`Math.min` and does not check its type, so JavaScript coerces a non-number: `null` becomes 0, a numeric string such as "5" becomes 5, and other strings or `undefined` become `NaN`. The model takes the eq as numbers and does not model this coercion.
- `getSummary`, `getStateSummary`, `getPublicProfile`, the Preset and Device `toFlutterFormat`, `Device.toApiResponse`, `Device.createDefault`, `User.fromCognitoUser`, `User.fromDynamoItem` and `Preset.getDefaultPresets` are outside the modelled core.
- The register, login, get-profile and get-devices handlers and the scripts are not part of this model.
- The apply-preset handler's call `device.applyPreset({volume: preset.volume, …})` is not modelled. It passes properties a Preset object does not have. The model stops at the guards' decision, and `Devices.AppliedPreset` gives what applying the preset means.
- The `GSI1` lookup for an existing preset name is an input, `takenNames`. In the deployed table it never finds preset items, which carry no `GSI1PK`.
- GetPresets.SortNewestFirst: proves the order and the permutation but not that presets created at the same time keep their scan order, which JavaScript's stable `sort` also guarantees. Timestamps that fail to parse (which make the comparator return `NaN`) are not modelled.
- One request uses a single `now`. The source reads the clock separately for `updated_at` and the other timestamps.

## Findings

| source | as written | input that shows it | evidently intended | confidence | as-written member | corrected member |
|---|---|---|---|---|---|---|
| audio_device_backend/lambda/presets/apply-preset.js:51-53 | compares the path `device_id` with `preset.device_id` on the hydrated Preset object, which never has that property, so the comparison always fails | any request with both ids, an existing device the caller may operate, and an existing preset | refuse only a preset whose stored item is tied to another device, as the preset listing scopes presets | high (not executed) | ApplyPreset.AsWrittenNeverProceeds | ApplyPreset.ProceedExactly |
| audio_device_backend/lambda/presets/create-preset.js:58 | puts the category under the key `category`, while the Preset constructor reads `preset_category`, so every created preset has an empty category | a body with `"category": "Music"` (or none, which should give "custom") | store `body.category \|\| 'custom'` as the preset's category | high (not executed) | CreatePreset.CategoryLostAsWritten | CreatePreset.CorrectedKeepsCategory |
