/** An account: identity, contact details, preferences, a public profile and
    usage statistics. Only a fixed list of fields may be changed through
    `update`; role, email, status and statistics are out of its reach. */
module Users {
  import opened Common

  const KeyPrefix: string := "USER#"
  const SortKey: string := "PROFILE"
  const EntityType: string := "User"
  const EmailKeyPrefix: string := "EMAIL#"
  const EmailSortKey: string := "USER"
  const RoleKeyPrefix: string := "ROLE#"
  const MinUsername: nat := 3
  const Active: string := "active"
  const Inactive: string := "inactive"
  const Suspended: string := "suspended"

  datatype Notifications = Notifications(email: bool, push: bool, sound: bool)
  datatype AudioPrefs = AudioPrefs(defaultVolume: real, autoEq: bool, preferredQuality: string)
  datatype Preferences = Preferences(theme: string, language: string, notifications: Notifications, audio: AudioPrefs)
  datatype SocialLinks = SocialLinks(twitter: string, github: string, linkedin: string)
  datatype UserProfile = UserProfile(bio: string, location: string, website: string, socialLinks: SocialLinks)
  datatype Stats = Stats(
    devicesCount: int,
    presetsCount: int,
    lastLogin: Option<string>,
    loginCount: int,
    totalSessionTime: int)

  /** The fields of a User object. */
  datatype UserRecord = UserRecord(
    pk: string,
    sk: string,
    userId: string,
    cognitoId: string,
    email: string,
    username: string,
    fullName: string,
    role: string,
    avatarUrl: string,
    phone: string,
    preferences: Preferences,
    profile: UserProfile,
    stats: Stats,
    status: string,
    emailVerified: bool,
    phoneVerified: bool,
    createdAt: string,
    updatedAt: string,
    lastActiveAt: string)

  /** The nested objects of the constructor's input; an absent object is the
      one whose every property is `None`. */
  datatype NotificationsData = NotificationsData(email: Option<bool>, push: Option<bool>, sound: Option<bool>)
  datatype AudioPrefsData = AudioPrefsData(defaultVolume: Option<real>, autoEq: Option<bool>, preferredQuality: Option<string>)
  datatype PreferencesData = PreferencesData(
    theme: Option<string>,
    language: Option<string>,
    notifications: NotificationsData,
    audio: AudioPrefsData)
  datatype SocialLinksData = SocialLinksData(twitter: Option<string>, github: Option<string>, linkedin: Option<string>)
  datatype UserProfileData = UserProfileData(
    bio: Option<string>,
    location: Option<string>,
    website: Option<string>,
    socialLinks: SocialLinksData)
  datatype StatsData = StatsData(
    devicesCount: Option<int>,
    presetsCount: Option<int>,
    lastLogin: Option<string>,
    loginCount: Option<int>,
    totalSessionTime: Option<int>)

  /** The plain object the constructor is given. */
  datatype UserData = UserData(
    pk: Option<string>,
    sk: Option<string>,
    userId: Option<string>,
    cognitoId: Option<string>,
    email: Option<string>,
    username: Option<string>,
    fullName: Option<string>,
    role: Option<string>,
    avatarUrl: Option<string>,
    phone: Option<string>,
    preferences: PreferencesData,
    profile: UserProfileData,
    stats: StatsData,
    status: Option<string>,
    emailVerified: Option<bool>,
    phoneVerified: Option<bool>,
    createdAt: Option<string>,
    updatedAt: Option<string>,
    lastActiveAt: Option<string>)

  // ---------------------------------------------------------------------
  // Construction
  // ---------------------------------------------------------------------

  /** The constructor's preference defaults: dark theme, en-US, every
      notification on, volume 0.7, automatic EQ, high quality. */
  function NewPreferences(p: PreferencesData): (r: Preferences)
    ensures r.theme == (if Present(p.theme) then p.theme.value else "dark")
    ensures r.language == (if Present(p.language) then p.language.value else "en-US")
    ensures r.notifications.email <==> p.notifications.email != Some(false)
    ensures r.notifications.push <==> p.notifications.push != Some(false)
    ensures r.notifications.sound <==> p.notifications.sound != Some(false)
    ensures p.audio.defaultVolume.None? ==> r.audio.defaultVolume == 0.7
    ensures p.audio.defaultVolume.Some? ==> r.audio.defaultVolume == p.audio.defaultVolume.value
    ensures r.audio.autoEq <==> p.audio.autoEq != Some(false)
    ensures r.audio.preferredQuality == (if Present(p.audio.preferredQuality) then p.audio.preferredQuality.value else "high")
    ensures r.theme != "" && r.language != "" && r.audio.preferredQuality != ""
  {
    Preferences(
      OrElse(p.theme, "dark"),
      OrElse(p.language, "en-US"),
      Notifications(p.notifications.email.GetOr(true), p.notifications.push.GetOr(true),
                    p.notifications.sound.GetOr(true)),
      AudioPrefs(p.audio.defaultVolume.GetOr(0.7), p.audio.autoEq.GetOr(true),
                 OrElse(p.audio.preferredQuality, "high")))
  }

  /** Statistics start at zero with no login recorded. */
  function NewStats(s: StatsData): (r: Stats)
    ensures r.lastLogin == (if Present(s.lastLogin) then s.lastLogin else None)
    ensures r.loginCount == s.loginCount.GetOr(0) && r.devicesCount == s.devicesCount.GetOr(0)
    ensures r.presetsCount == s.presetsCount.GetOr(0) && r.totalSessionTime == s.totalSessionTime.GetOr(0)
  {
    Stats(OrElseInt(s.devicesCount, 0), OrElseInt(s.presetsCount, 0),
          if Present(s.lastLogin) then s.lastLogin else None,
          OrElseInt(s.loginCount, 0), OrElseInt(s.totalSessionTime, 0))
  }

  /** `new User(data)`, with `now` the current time and `freshId` the uuid
      the constructor would draw. */
  function NewUser(data: UserData, now: string, freshId: string): (u: UserRecord)
    ensures Present(data.userId) ==> u.userId == data.userId.value
    ensures Present(data.pk) ==> u.pk == data.pk.value
    ensures !Present(data.pk) ==> u.pk == KeyPrefix + u.userId
    ensures !Present(data.pk) && !Present(data.userId) ==> u.userId == freshId
    ensures !Present(data.role) ==> u.role == StandardUser
    ensures !Present(data.status) ==> u.status == Active
    ensures data.emailVerified.None? ==> !u.emailVerified
    ensures data.phoneVerified.None? ==> !u.phoneVerified
    ensures u.preferences == NewPreferences(data.preferences) && u.stats == NewStats(data.stats)
    ensures !Present(data.createdAt) ==> u.createdAt == now
    ensures !Present(data.updatedAt) ==> u.updatedAt == now
    ensures !Present(data.lastActiveAt) ==> u.lastActiveAt == now
  {
    var pk := OrElse(data.pk, KeyPrefix + OrElse(data.userId, freshId));
    StripPrefix(KeyPrefix, freshId);
    UserRecord(
      pk,
      OrElse(data.sk, SortKey),
      OrElse(data.userId, ReplaceFirst(pk, KeyPrefix, "")),
      OrElse(data.cognitoId, ""),
      OrElse(data.email, ""),
      OrElse(data.username, ""),
      OrElse(data.fullName, ""),
      OrElse(data.role, StandardUser),
      OrElse(data.avatarUrl, ""),
      OrElse(data.phone, ""),
      NewPreferences(data.preferences),
      UserProfile(OrElse(data.profile.bio, ""), OrElse(data.profile.location, ""), OrElse(data.profile.website, ""),
                  SocialLinks(OrElse(data.profile.socialLinks.twitter, ""), OrElse(data.profile.socialLinks.github, ""),
                              OrElse(data.profile.socialLinks.linkedin, ""))),
      NewStats(data.stats),
      OrElse(data.status, Active),
      data.emailVerified.GetOr(false),
      data.phoneVerified.GetOr(false),
      OrElse(data.createdAt, now),
      OrElse(data.updatedAt, now),
      OrElse(data.lastActiveAt, now))
  }

  /** Without an explicit `user_id`, the id is the key with its prefix removed. */
  lemma UserIdFromKey(data: UserData, id: string, now: string, freshId: string)
    requires data.pk == Some(KeyPrefix + id) && !Present(data.userId)
    ensures NewUser(data, now, freshId).userId == id
    ensures NewUser(data, now, freshId).pk == KeyPrefix + id
  {
    StripPrefix(KeyPrefix, id);
  }

  // ---------------------------------------------------------------------
  // Email shape
  // ---------------------------------------------------------------------

  /** A run of one or more characters, none of them white space or `@`: the
      class `[^\s@]+`. */
  predicate Segment(x: string) {
    x != [] && forall i :: 0 <= i < |x| ==> !IsWhitespace(x[i]) && x[i] != '@'
  }

  /** `s` splits as local `@` domain `.` tld at indices `k` and `j`. */
  predicate EmailAt(s: string, k: int, j: int) {
    && 0 < k && k + 1 < j && j + 1 < |s|
    && s[k] == '@' && s[j] == '.'
    && Segment(s[..k]) && Segment(s[k + 1..j]) && Segment(s[j + 1..])
  }

  /** `isValidEmail(email)`: the whole string matches `^[^\s@]+@[^\s@]+\.[^\s@]+$`. */
  predicate IsValidEmail(s: string) {
    exists k, j | 0 < k < j < |s| :: EmailAt(s, k, j)
  }

  /** Any three segments joined by `@` and `.` form a valid address. */
  lemma EmailFromParts(a: string, b: string, c: string)
    requires Segment(a) && Segment(b) && Segment(c)
    ensures IsValidEmail(a + "@" + b + "." + c)
  {
    var s := a + "@" + b + "." + c;
    var k, j := |a|, |a| + 1 + |b|;
    assert s[..k] == a;
    assert s[k + 1..j] == b;
    assert s[j + 1..] == c;
    assert EmailAt(s, k, j);
  }

  /** A valid address has no white space and exactly one `@`, neither first
      nor last. */
  lemma ValidEmailShape(s: string)
    requires IsValidEmail(s)
    ensures forall i :: 0 <= i < |s| ==> !IsWhitespace(s[i])
    ensures exists k :: 0 < k < |s| - 1 && s[k] == '@' && forall i :: 0 <= i < |s| && s[i] == '@' ==> i == k
  {
    var k, j :| 0 < k < j < |s| && EmailAt(s, k, j);
    assert k + 1 < j && j + 1 < |s|;
    forall i | 0 <= i < |s| ensures !IsWhitespace(s[i]) && (s[i] == '@' ==> i == k) {
      if i < k {
        assert s[i] == s[..k][i];
      } else if k < i < j {
        assert s[i] == s[k + 1..j][i - k - 1];
      } else if j < i {
        assert s[i] == s[j + 1..][i - j - 1];
      }
    }
  }

  /** Addresses with a second `@`, or with no dot after the `@`, are refused. */
  lemma EmailCounterexamples()
    ensures IsValidEmail("a@b.c")
    ensures !IsValidEmail("a@b@c.d")
    ensures !IsValidEmail("a b@c.d")
    ensures !IsValidEmail("ab@cd")
  {
    EmailFromParts("a", "b", "c");
    assert "a" + "@" + "b" + "." + "c" == "a@b.c";
    var twoAts, blank, noDot := "a@b@c.d", "a b@c.d", "ab@cd";
    assert twoAts[1] == '@' && twoAts[3] == '@';
    if IsValidEmail(twoAts) {
      ValidEmailShape(twoAts);
    }
    assert IsWhitespace(blank[1]);
    if IsValidEmail(blank) {
      ValidEmailShape(blank);
    }
    assert forall i :: 0 <= i < |noDot| ==> noDot[i] != '.';
  }

  // ---------------------------------------------------------------------
  // Validation
  // ---------------------------------------------------------------------

  /** The validation errors, in the order `validate` reports them. */
  datatype UserError =
    | InvalidEmail
    | ShortUsername
    | FullNameRequired
    | UnknownRole
    | UnknownStatus
    | DefaultVolumeOutOfRange

  predicate KnownRole(role: string) {
    role == Admin || role == StandardUser
  }

  predicate KnownStatus(status: string) {
    status == Active || status == Inactive || status == Suspended
  }

  /** The valid users: a well-formed email, a username of at least three
      characters, a full name, a known role and status, a default volume in
      [0, 1]. */
  predicate ValidUser(u: UserRecord) {
    && IsValidEmail(u.email)
    && |u.username| >= MinUsername
    && !IsBlank(u.fullName)
    && KnownRole(u.role)
    && KnownStatus(u.status)
    && 0.0 <= u.preferences.audio.defaultVolume <= 1.0
  }

  /** The condition under which `validate` reports `e`. */
  predicate Fails(u: UserRecord, e: UserError) {
    match e
    case InvalidEmail => !IsValidEmail(u.email)
    case ShortUsername => |u.username| < MinUsername
    case FullNameRequired => IsBlank(u.fullName)
    case UnknownRole => !KnownRole(u.role)
    case UnknownStatus => !KnownStatus(u.status)
    case DefaultVolumeOutOfRange => !(0.0 <= u.preferences.audio.defaultVolume <= 1.0)
  }

  /** The error list of `validate()`; it is empty exactly for valid users. */
  function UserErrors(u: UserRecord): (errs: seq<UserError>)
    ensures errs == [] <==> ValidUser(u)
    ensures forall e :: e in errs <==> Fails(u, e)
  {
    Flag(!IsValidEmail(u.email), InvalidEmail)
    + Flag(|u.username| < MinUsername, ShortUsername)
    + Flag(IsBlank(u.fullName), FullNameRequired)
    + Flag(!KnownRole(u.role), UnknownRole)
    + Flag(!KnownStatus(u.status), UnknownStatus)
    + Flag(!(0.0 <= u.preferences.audio.defaultVolume <= 1.0), DefaultVolumeOutOfRange)
  }

  // ---------------------------------------------------------------------
  // Keys and projections
  // ---------------------------------------------------------------------

  /** The secondary-index keys `toDynamoItem` adds to the item. */
  datatype IndexKeys = IndexKeys(gsi1pk: string, gsi1sk: string, gsi2pk: string, gsi2sk: string)

  function ItemKeys(u: UserRecord): IndexKeys {
    IndexKeys(EmailKeyPrefix + u.email, EmailSortKey, RoleKeyPrefix + u.role, u.userId)
  }

  /** `isAdmin()`. */
  predicate IsAdmin(u: UserRecord) {
    u.role == Admin
  }

  /** `isActive()`. */
  predicate IsActive(u: UserRecord) {
    u.status == Active
  }

  /** The email index tells users apart exactly by email; the role index
      puts a user under `ROLE#admin` exactly when it is an administrator;
      the role index sorts by user id. */
  lemma IndexKeysDerivation(u1: UserRecord, u2: UserRecord)
    ensures ItemKeys(u1).gsi1pk == ItemKeys(u2).gsi1pk <==> u1.email == u2.email
    ensures ItemKeys(u1).gsi2pk == RoleKeyPrefix + Admin <==> IsAdmin(u1)
    ensures ItemKeys(u1).gsi2pk == ItemKeys(u2).gsi2pk <==> u1.role == u2.role
    ensures ItemKeys(u1).gsi2sk == u1.userId
  {
    PrefixCancel(EmailKeyPrefix, u1.email, u2.email);
    PrefixCancel(RoleKeyPrefix, u1.role, Admin);
    PrefixCancel(RoleKeyPrefix, u1.role, u2.role);
  }

  /** The part of `toApiResponse` everyone may see. */
  datatype PublicView = PublicView(
    id: string,
    username: string,
    fullName: string,
    role: string,
    avatarUrl: string,
    profile: UserProfile,
    devicesCount: int,
    presetsCount: int,
    lastLogin: Option<string>,
    status: string,
    createdAt: string,
    lastActiveAt: string)

  /** The part added for the user itself. */
  datatype PrivateView = PrivateView(
    email: string,
    phone: string,
    preferences: Preferences,
    emailVerified: bool,
    phoneVerified: bool,
    updatedAt: string)

  datatype UserResponse = UserResponse(public: PublicView, private: Option<PrivateView>)

  /** `toApiResponse(includePrivate)`. */
  function ToApiResponse(u: UserRecord, includePrivate: bool): (r: UserResponse)
    ensures r.private.Some? <==> includePrivate
    ensures r.public.id == u.userId && r.public.role == u.role
    ensures includePrivate ==> r.private.value.email == u.email && r.private.value.phone == u.phone
                               && r.private.value.preferences == u.preferences
    ensures includePrivate ==> r.private.value.emailVerified == u.emailVerified
                               && r.private.value.phoneVerified == u.phoneVerified
                               && r.private.value.updatedAt == u.updatedAt
  {
    UserResponse(
      PublicView(u.userId, u.username, u.fullName, u.role, u.avatarUrl, u.profile, u.stats.devicesCount,
                 u.stats.presetsCount, u.stats.lastLogin, u.status, u.createdAt, u.lastActiveAt),
      if includePrivate then
        Some(PrivateView(u.email, u.phone, u.preferences, u.emailVerified, u.phoneVerified, u.updatedAt))
      else None)
  }

  /** The public response reveals nothing of the private fields: two users
      that differ only in email, phone, preferences, verification flags and
      update time (and in the statistics the response leaves out) get the
      same public response. */
  lemma PublicResponseHidesPrivate(u1: UserRecord, u2: UserRecord)
    requires u1.(email := u2.email, phone := u2.phone, preferences := u2.preferences,
                 emailVerified := u2.emailVerified, phoneVerified := u2.phoneVerified,
                 updatedAt := u2.updatedAt,
                 stats := u2.stats.(devicesCount := u1.stats.devicesCount,
                                    presetsCount := u1.stats.presetsCount,
                                    lastLogin := u1.stats.lastLogin)) == u2
    ensures ToApiResponse(u1, false) == ToApiResponse(u2, false)
  {
  }

  // ---------------------------------------------------------------------
  // Changes
  // ---------------------------------------------------------------------

  /** The fields `update` may change, in the order it visits them. */
  datatype Field = FullName | AvatarUrl | Phone | PreferencesField | ProfileField

  const AllowedUpdates: seq<Field> := [FullName, AvatarUrl, Phone, PreferencesField, ProfileField]

  /** A shallow patch of the preferences: each supplied key replaces the
      whole value under it. */
  datatype PreferencesPatch = PreferencesPatch(
    theme: Option<string>,
    language: Option<string>,
    notifications: Option<Notifications>,
    audio: Option<AudioPrefs>)

  datatype ProfilePatch = ProfilePatch(
    bio: Option<string>,
    location: Option<string>,
    website: Option<string>,
    socialLinks: Option<SocialLinks>)

  /** The object given to `update`; it may carry keys `update` ignores. */
  datatype UserPatch = UserPatch(
    fullName: Option<string>,
    avatarUrl: Option<string>,
    phone: Option<string>,
    preferences: Option<PreferencesPatch>,
    profile: Option<ProfilePatch>,
    role: Option<string>,
    email: Option<string>,
    status: Option<string>,
    stats: Option<Stats>)

  /** `{ ...preferences, ...patch }`. */
  function MergePreferences(p: Preferences, patch: PreferencesPatch): (r: Preferences)
    ensures patch.theme.Some? ==> r.theme == patch.theme.value
    ensures patch.theme.None? ==> r.theme == p.theme
    ensures patch.language.Some? ==> r.language == patch.language.value
    ensures patch.language.None? ==> r.language == p.language
    ensures patch.notifications.Some? ==> r.notifications == patch.notifications.value
    ensures patch.notifications.None? ==> r.notifications == p.notifications
    ensures patch.audio.Some? ==> r.audio == patch.audio.value
    ensures patch.audio.None? ==> r.audio == p.audio
    ensures patch == PreferencesPatch(None, None, None, None) ==> r == p
  {
    Preferences(patch.theme.GetOr(p.theme), patch.language.GetOr(p.language),
                patch.notifications.GetOr(p.notifications), patch.audio.GetOr(p.audio))
  }

  /** `{ ...profile, ...patch }`. */
  function MergeProfile(p: UserProfile, patch: ProfilePatch): (r: UserProfile)
    ensures patch.bio.Some? ==> r.bio == patch.bio.value
    ensures patch.bio.None? ==> r.bio == p.bio
    ensures patch.location.Some? ==> r.location == patch.location.value
    ensures patch.location.None? ==> r.location == p.location
    ensures patch.website.Some? ==> r.website == patch.website.value
    ensures patch.website.None? ==> r.website == p.website
    ensures patch.socialLinks.Some? ==> r.socialLinks == patch.socialLinks.value
    ensures patch.socialLinks.None? ==> r.socialLinks == p.socialLinks
    ensures patch == ProfilePatch(None, None, None, None) ==> r == p
  {
    UserProfile(patch.bio.GetOr(p.bio), patch.location.GetOr(p.location),
                patch.website.GetOr(p.website), patch.socialLinks.GetOr(p.socialLinks))
  }

  /** One step of the allow-list loop. */
  function ApplyField(u: UserRecord, patch: UserPatch, f: Field): UserRecord {
    match f
    case FullName => if patch.fullName.Some? then u.(fullName := patch.fullName.value) else u
    case AvatarUrl => if patch.avatarUrl.Some? then u.(avatarUrl := patch.avatarUrl.value) else u
    case Phone => if patch.phone.Some? then u.(phone := patch.phone.value) else u
    case PreferencesField =>
      if patch.preferences.Some? then u.(preferences := MergePreferences(u.preferences, patch.preferences.value)) else u
    case ProfileField =>
      if patch.profile.Some? then u.(profile := MergeProfile(u.profile, patch.profile.value)) else u
  }

  /** The first `n` steps of the allow-list loop. */
  function ApplyAllowed(u: UserRecord, patch: UserPatch, n: nat): UserRecord
    requires n <= |AllowedUpdates|
  {
    if n == 0 then u else ApplyField(ApplyAllowed(u, patch, n - 1), patch, AllowedUpdates[n - 1])
  }

  /** The state after `update(updates)`. */
  function UpdatedUser(u: UserRecord, patch: UserPatch, now: string): UserRecord {
    ApplyAllowed(u, patch, |AllowedUpdates|).(updatedAt := now)
  }

  /** No prefix of the allow-list loop touches anything but the five
      allowed fields: role, email, status, stats and identity stay as they were. */
  lemma {:induction false} AllowListFrame(u: UserRecord, patch: UserPatch, n: nat)
    requires n <= |AllowedUpdates|
    ensures ApplyAllowed(u, patch, n).(fullName := u.fullName, avatarUrl := u.avatarUrl, phone := u.phone,
                                       preferences := u.preferences, profile := u.profile) == u
  {
    if n > 0 {
      AllowListFrame(u, patch, n - 1);
    }
  }

  /** `update` sets each supplied allowed field, merges the two nested
      objects key by key, and leaves everything else alone, whatever the
      patch says about role, email, status or stats. */
  lemma UpdateEffect(u: UserRecord, patch: UserPatch, now: string)
    ensures UpdatedUser(u, patch, now) ==
            u.(fullName := patch.fullName.GetOr(u.fullName),
               avatarUrl := patch.avatarUrl.GetOr(u.avatarUrl),
               phone := patch.phone.GetOr(u.phone),
               preferences := if patch.preferences.Some? then MergePreferences(u.preferences, patch.preferences.value)
                              else u.preferences,
               profile := if patch.profile.Some? then MergeProfile(u.profile, patch.profile.value) else u.profile,
               updatedAt := now)
  {
    var u1 := ApplyField(u, patch, FullName);
    assert u1 == u.(fullName := patch.fullName.GetOr(u.fullName));
    var u2 := ApplyField(u1, patch, AvatarUrl);
    assert u2 == u1.(avatarUrl := patch.avatarUrl.GetOr(u.avatarUrl));
    var u3 := ApplyField(u2, patch, Phone);
    assert u3 == u2.(phone := patch.phone.GetOr(u.phone));
    var u4 := ApplyField(u3, patch, PreferencesField);
    assert u4 == u3.(preferences := if patch.preferences.Some? then MergePreferences(u.preferences, patch.preferences.value)
                                    else u.preferences);
    var u5 := ApplyField(u4, patch, ProfileField);
    assert u5 == u4.(profile := if patch.profile.Some? then MergeProfile(u.profile, patch.profile.value) else u.profile);
    assert ApplyAllowed(u, patch, 1) == u1;
    assert ApplyAllowed(u, patch, 2) == u2;
    assert ApplyAllowed(u, patch, 3) == u3;
    assert ApplyAllowed(u, patch, 4) == u4;
    assert ApplyAllowed(u, patch, 5) == u5;
  }

  /** An update keeps a user valid unless it blanks the full name or brings
      in a default volume outside [0, 1]. */
  lemma UpdateKeepsValidity(u: UserRecord, patch: UserPatch, now: string)
    requires ValidUser(u)
    requires patch.fullName.Some? ==> !IsBlank(patch.fullName.value)
    requires patch.preferences.Some? && patch.preferences.value.audio.Some? ==>
               0.0 <= patch.preferences.value.audio.value.defaultVolume <= 1.0
    ensures ValidUser(UpdatedUser(u, patch, now))
  {
    UpdateEffect(u, patch, now);
  }

  /** The statistics keys `updateStats` may be given; `lastLogin` is
      `Some(None)` for an explicit null. */
  datatype StatsPatch = StatsPatch(
    devicesCount: Option<int>,
    presetsCount: Option<int>,
    lastLogin: Option<Option<string>>,
    loginCount: Option<int>,
    totalSessionTime: Option<int>)

  /** `{ ...stats, ...statUpdates }`. */
  function MergeStats(s: Stats, p: StatsPatch): (r: Stats)
    ensures p.devicesCount.Some? ==> r.devicesCount == p.devicesCount.value
    ensures p.devicesCount.None? ==> r.devicesCount == s.devicesCount
    ensures p.presetsCount.Some? ==> r.presetsCount == p.presetsCount.value
    ensures p.presetsCount.None? ==> r.presetsCount == s.presetsCount
    ensures p.lastLogin.Some? ==> r.lastLogin == p.lastLogin.value
    ensures p.lastLogin.None? ==> r.lastLogin == s.lastLogin
    ensures p.loginCount.Some? ==> r.loginCount == p.loginCount.value
    ensures p.loginCount.None? ==> r.loginCount == s.loginCount
    ensures p.totalSessionTime.Some? ==> r.totalSessionTime == p.totalSessionTime.value
    ensures p.totalSessionTime.None? ==> r.totalSessionTime == s.totalSessionTime
  {
    Stats(p.devicesCount.GetOr(s.devicesCount), p.presetsCount.GetOr(s.presetsCount),
          p.lastLogin.GetOr(s.lastLogin), p.loginCount.GetOr(s.loginCount),
          p.totalSessionTime.GetOr(s.totalSessionTime))
  }

  /** Merging the same statistics twice is merging them once. */
  lemma MergeStatsIdempotent(s: Stats, p: StatsPatch)
    ensures MergeStats(MergeStats(s, p), p) == MergeStats(s, p)
  {
  }

  /** The state after `updateStats(statUpdates)`. */
  function StatsUpdated(u: UserRecord, p: StatsPatch, now: string): (q: UserRecord)
    ensures q.stats == MergeStats(u.stats, p) && q.updatedAt == now
    ensures q.(stats := u.stats, updatedAt := u.updatedAt) == u
  {
    u.(stats := MergeStats(u.stats, p), updatedAt := now)
  }

  /** The state after `updateLastActive()`: one more login, recorded now. */
  function LastActive(u: UserRecord, now: string): (q: UserRecord)
    ensures q.stats.loginCount == u.stats.loginCount + 1
    ensures q.stats.lastLogin == Some(now) && q.lastActiveAt == now
    ensures q.(lastActiveAt := u.lastActiveAt, stats := u.stats) == u
    ensures q.stats.(lastLogin := u.stats.lastLogin, loginCount := u.stats.loginCount) == u.stats
  {
    u.(lastActiveAt := now, stats := u.stats.(lastLogin := Some(now), loginCount := u.stats.loginCount + 1))
  }

  /** Recording activity changes neither validity nor role. */
  lemma LastActiveKeepsValidity(u: UserRecord, now: string)
    ensures ValidUser(LastActive(u, now)) == ValidUser(u)
    ensures IsAdmin(LastActive(u, now)) == IsAdmin(u)
  {
  }

  /** None of the object's own changes makes a user an administrator or
      changes whether it is active: role and status are only ever set by the
      constructor, even when `update` is handed them. */
  lemma ChangesKeepRoleAndStatus(u: UserRecord, patch: UserPatch, p: StatsPatch, now: string)
    ensures IsAdmin(UpdatedUser(u, patch, now)) == IsAdmin(u) && IsActive(UpdatedUser(u, patch, now)) == IsActive(u)
    ensures IsAdmin(StatsUpdated(u, p, now)) == IsAdmin(u) && IsActive(StatsUpdated(u, p, now)) == IsActive(u)
    ensures IsAdmin(LastActive(u, now)) == IsAdmin(u) && IsActive(LastActive(u, now)) == IsActive(u)
  {
    UpdateEffect(u, patch, now);
  }

  // ---------------------------------------------------------------------
  // The object
  // ---------------------------------------------------------------------

  class User {
    var pk: string
    var sk: string
    var userId: string
    var cognitoId: string
    var email: string
    var username: string
    var fullName: string
    var role: string
    var avatarUrl: string
    var phone: string
    var preferences: Preferences
    var profile: UserProfile
    var stats: Stats
    var status: string
    var emailVerified: bool
    var phoneVerified: bool
    var createdAt: string
    var updatedAt: string
    var lastActiveAt: string

    /** The object's fields as a value. */
    function Snapshot(): UserRecord
      reads this
    {
      UserRecord(pk, sk, userId, cognitoId, email, username, fullName, role, avatarUrl, phone,
                 preferences, profile, stats, status, emailVerified, phoneVerified, createdAt,
                 updatedAt, lastActiveAt)
    }

    /** `new User(data)`. */
    constructor (data: UserData, now: string, freshId: string)
      ensures Snapshot() == NewUser(data, now, freshId)
    {
      var u := NewUser(data, now, freshId);
      pk, sk, userId, cognitoId, email := u.pk, u.sk, u.userId, u.cognitoId, u.email;
      username, fullName, role, avatarUrl, phone := u.username, u.fullName, u.role, u.avatarUrl, u.phone;
      preferences, profile, stats, status := u.preferences, u.profile, u.stats, u.status;
      emailVerified, phoneVerified := u.emailVerified, u.phoneVerified;
      createdAt, updatedAt, lastActiveAt := u.createdAt, u.updatedAt, u.lastActiveAt;
    }

    /** `update(updates)`: walks the allow-list, copying or merging each
      supplied field. */
    method Update(patch: UserPatch, now: string)
      modifies this
      ensures Snapshot() == UpdatedUser(old(Snapshot()), patch, now)
    {
      var i := 0;
      while i < |AllowedUpdates|
        invariant 0 <= i <= |AllowedUpdates|
        invariant Snapshot() == ApplyAllowed(old(Snapshot()), patch, i)
      {
        SetAllowed(AllowedUpdates[i], patch);
        i := i + 1;
      }
      updatedAt := now;
    }

    /** One step of the allow-list loop: copy the supplied field, or merge
        it into the nested object it names. */
    method SetAllowed(f: Field, patch: UserPatch)
      modifies this
      ensures Snapshot() == ApplyField(old(Snapshot()), patch, f)
    {
      ghost var u := Snapshot();
      match f {
      case FullName =>
        if patch.fullName.Some? {
          fullName := patch.fullName.value;
          assert Snapshot() == u.(fullName := fullName);
        }
      case AvatarUrl =>
        if patch.avatarUrl.Some? {
          avatarUrl := patch.avatarUrl.value;
          assert Snapshot() == u.(avatarUrl := avatarUrl);
        }
      case Phone =>
        if patch.phone.Some? {
          phone := patch.phone.value;
          assert Snapshot() == u.(phone := phone);
        }
      case PreferencesField =>
        if patch.preferences.Some? {
          preferences := MergePreferences(preferences, patch.preferences.value);
          assert Snapshot() == u.(preferences := preferences);
        }
      case ProfileField =>
        if patch.profile.Some? {
          profile := MergeProfile(profile, patch.profile.value);
          assert Snapshot() == u.(profile := profile);
        }
      }
    }

    /** `updateStats(statUpdates)`. */
    method UpdateStats(p: StatsPatch, now: string)
      modifies this
      ensures Snapshot() == StatsUpdated(old(Snapshot()), p, now)
    {
      stats := MergeStats(stats, p);
      updatedAt := now;
    }

    /** `updateLastActive()`. */
    method UpdateLastActive(now: string)
      modifies this
      ensures Snapshot() == LastActive(old(Snapshot()), now)
    {
      lastActiveAt := now;
      stats := stats.(lastLogin := Some(now));
      stats := stats.(loginCount := stats.loginCount + 1);
    }
  }
}
