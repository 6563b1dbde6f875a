/** The preset-listing request (GET /api/presets, or GET
    /api/devices/{device_id}/presets): every stored preset the caller may
    see, optionally scoped to one device, newest first, with its count.

    The table scan is not modelled: the stored preset items are a
    parameter. Dates are compared through `at`, which stands for parsing a
    creation time into milliseconds. */
module GetPresets {
  import opened Common
  import opened Presets

  /** The device filter: a stored preset tied to another device is left out;
      one tied to no device is kept. */
  predicate InDeviceScope(deviceId: Option<string>, item: PresetData) {
    !(Present(deviceId) && Present(item.deviceId) && item.deviceId.value != deviceId.value)
  }

  /** The filter applied to each stored item, in the order it tests things.
      It reads the raw item, so a preset without `is_public` is not public
      here. */
  predicate Accessible(deviceId: Option<string>, caller: Caller, item: PresetData) {
    if !InDeviceScope(deviceId, item) then false
    else if caller.role == Admin then true
    else if item.createdBy == Some(caller.userId) then true
    else if item.isPublic == Some(true) then true
    else false
  }

  /** An item is listed exactly when it is in scope and the caller is an
      administrator, its creator, or it is marked public. */
  lemma AccessRule(deviceId: Option<string>, caller: Caller, item: PresetData)
    ensures Accessible(deviceId, caller, item) <==>
      InDeviceScope(deviceId, item)
      && (caller.role == Admin || item.createdBy == Some(caller.userId) || item.isPublic == Some(true))
    ensures !Present(deviceId) ==> InDeviceScope(deviceId, item)
  {
  }

  /** `getPresetsForUser(deviceId, userId, userRole)`: the accessible items,
      in their stored order. */
  function PresetsForUser(deviceId: Option<string>, caller: Caller, items: seq<PresetData>): (r: seq<PresetData>)
    ensures SubsequenceOf(r, items)
    ensures forall x :: x in r <==> x in items && Accessible(deviceId, caller, x)
    ensures forall x :: multiset(r)[x] == if Accessible(deviceId, caller, x) then multiset(items)[x] else 0
  {
    Filter(items, x => Accessible(deviceId, caller, x))
  }

  /** An administrator sees every preset in scope. */
  lemma AdminSeesAllInScope(deviceId: Option<string>, caller: Caller, items: seq<PresetData>)
    requires caller.role == Admin
    ensures forall x :: x in PresetsForUser(deviceId, caller, items) <==> x in items && InDeviceScope(deviceId, x)
  {
  }

  /** For a stored item that carries its `is_public` flag, the listing and
      the preset's own `canView` agree (for any caller with a non-empty id,
      which the identity claims always give). */
  lemma ListingAgreesWithCanView(caller: Caller, item: PresetData, now: string, freshId: string)
    requires caller.userId != ""
    requires item.isPublic.Some?
    ensures Accessible(None, caller, item) <==> CanView(FromItem(item, now, freshId), caller.userId, caller.role)
  {
  }

  /** A stored item without `is_public` is public to the Preset model but is
      hidden from a standard user who did not create it. */
  lemma MissingFlagHidden(deviceId: Option<string>, caller: Caller, item: PresetData, now: string, freshId: string)
    requires item.isPublic.None?
    requires caller.role != Admin && item.createdBy != Some(caller.userId)
    ensures !Accessible(deviceId, caller, item)
    ensures CanView(FromItem(item, now, freshId), caller.userId, caller.role)
  {
  }

  // ---------------------------------------------------------------------
  // Ordering
  // ---------------------------------------------------------------------

  /** Newest first: no preset comes before a later-created one. */
  predicate NewestFirst(rs: seq<PresetResponse>, at: string -> int) {
    forall i, j :: 0 <= i < j < |rs| ==> at(rs[i].createdAt) >= at(rs[j].createdAt)
  }

  /** `x` put in front of the first preset that is not newer than it. */
  function Insert(x: PresetResponse, rs: seq<PresetResponse>, at: string -> int): (r: seq<PresetResponse>)
    requires NewestFirst(rs, at)
    ensures NewestFirst(r, at)
    ensures multiset(r) == multiset(rs) + multiset{x}
    ensures forall y :: y in r ==> y == x || y in rs
    decreases |rs|
  {
    if rs == [] || at(rs[0].createdAt) <= at(x.createdAt) then
      assert forall j :: 0 <= j < |rs| ==> at(rs[j].createdAt) <= at(x.createdAt) by {
        if rs != [] {
          assert forall j :: 0 < j < |rs| ==> at(rs[j].createdAt) <= at(rs[0].createdAt);
        }
      }
      HeadFirst(x, rs, at);
      [x] + rs
    else
      var rest := Insert(x, rs[1..], at);
      assert rs == [rs[0]] + rs[1..];
      assert forall y :: y in rs[1..] ==> at(y.createdAt) <= at(rs[0].createdAt);
      assert forall j :: 0 <= j < |rest| ==> at(rest[j].createdAt) <= at(rs[0].createdAt) by {
        forall j | 0 <= j < |rest| ensures at(rest[j].createdAt) <= at(rs[0].createdAt) {
          assert rest[j] in rest;
        }
      }
      HeadFirst(rs[0], rest, at);
      [rs[0]] + rest
  }

  /** A preset no older than every preset of a sorted list can go in front. */
  lemma HeadFirst(x: PresetResponse, rs: seq<PresetResponse>, at: string -> int)
    requires NewestFirst(rs, at)
    requires forall j :: 0 <= j < |rs| ==> at(rs[j].createdAt) <= at(x.createdAt)
    ensures NewestFirst([x] + rs, at)
  {
    var r := [x] + rs;
    forall i, j | 0 <= i < j < |r| ensures at(r[i].createdAt) >= at(r[j].createdAt) {
      if i > 0 {
        assert r[i] == rs[i - 1] && r[j] == rs[j - 1];
      } else {
        assert r[j] == rs[j - 1];
      }
    }
  }

  /** The `sort` by descending creation time. */
  function SortNewestFirst(rs: seq<PresetResponse>, at: string -> int): (r: seq<PresetResponse>)
    ensures NewestFirst(r, at)
    ensures multiset(r) == multiset(rs)
    decreases |rs|
  {
    if rs == [] then []
    else
      assert rs == [rs[0]] + rs[1..];
      Insert(rs[0], SortNewestFirst(rs[1..], at), at)
  }

  // ---------------------------------------------------------------------
  // The response
  // ---------------------------------------------------------------------

  /** The `data` of the response. */
  datatype PresetList = PresetList(deviceId: Option<string>, presets: seq<PresetResponse>, count: nat, userRole: string)

  /** Each item hydrated into a Preset and turned into its API form. */
  function Responses(items: seq<PresetData>, now: string, freshId: string): (rs: seq<PresetResponse>)
    ensures |rs| == |items|
    ensures forall i :: 0 <= i < |items| ==> rs[i] == ToApiResponse(FromItem(items[i], now, freshId))
  {
    seq(|items|, i requires 0 <= i < |items| => ToApiResponse(FromItem(items[i], now, freshId)))
  }

  /** The listing: the accessible presets, newest first, counted. */
  function ListPresets(deviceId: Option<string>, caller: Caller, items: seq<PresetData>,
                       now: string, freshId: string, at: string -> int): (r: PresetList)
    ensures r.count == |r.presets| == |PresetsForUser(deviceId, caller, items)|
    ensures multiset(r.presets) == multiset(Responses(PresetsForUser(deviceId, caller, items), now, freshId))
    ensures NewestFirst(r.presets, at)
    ensures r.deviceId == deviceId && r.userRole == caller.role
  {
    var sorted := SortNewestFirst(Responses(PresetsForUser(deviceId, caller, items), now, freshId), at);
    assert |sorted| == |multiset(sorted)|;
    PresetList(deviceId, sorted, |sorted|, caller.role)
  }

  /** Two lists holding the same multiset hold the same elements. */
  lemma SameMembers(a: seq<PresetResponse>, b: seq<PresetResponse>)
    requires multiset(a) == multiset(b)
    ensures forall x :: x in a <==> x in b
  {
    forall x ensures x in a <==> x in b {
      assert x in a <==> x in multiset(a);
      assert x in b <==> x in multiset(b);
    }
  }

  /** A listed preset comes from an item the caller may see, and every such
      item is listed. */
  lemma ListedExactly(deviceId: Option<string>, caller: Caller, items: seq<PresetData>,
                      now: string, freshId: string, at: string -> int, item: PresetData)
    ensures item in items && Accessible(deviceId, caller, item) ==>
      ToApiResponse(FromItem(item, now, freshId)) in ListPresets(deviceId, caller, items, now, freshId, at).presets
    ensures forall resp :: resp in ListPresets(deviceId, caller, items, now, freshId, at).presets ==>
      exists x :: x in items && Accessible(deviceId, caller, x) && resp == ToApiResponse(FromItem(x, now, freshId))
  {
    var acc := PresetsForUser(deviceId, caller, items);
    var rs := Responses(acc, now, freshId);
    SameMembers(ListPresets(deviceId, caller, items, now, freshId, at).presets, rs);
    if item in items && Accessible(deviceId, caller, item) {
      ResponseOfMember(acc, item, now, freshId);
    }
    ResponsesFromMembers(acc, items, deviceId, caller, now, freshId);
  }

  /** The response of a member of the list is among the responses. */
  lemma ResponseOfMember(acc: seq<PresetData>, item: PresetData, now: string, freshId: string)
    requires item in acc
    ensures ToApiResponse(FromItem(item, now, freshId)) in Responses(acc, now, freshId)
  {
    var i :| 0 <= i < |acc| && acc[i] == item;
    assert Responses(acc, now, freshId)[i] == ToApiResponse(FromItem(item, now, freshId));
  }

  /** Every response comes from a member of the accessible items. */
  lemma ResponsesFromMembers(acc: seq<PresetData>, items: seq<PresetData>, deviceId: Option<string>,
                             caller: Caller, now: string, freshId: string)
    requires acc == PresetsForUser(deviceId, caller, items)
    ensures forall resp :: resp in Responses(acc, now, freshId) ==>
      exists x :: x in items && Accessible(deviceId, caller, x) && resp == ToApiResponse(FromItem(x, now, freshId))
  {
    var rs := Responses(acc, now, freshId);
    forall resp | resp in rs
      ensures exists x :: x in items && Accessible(deviceId, caller, x) && resp == ToApiResponse(FromItem(x, now, freshId))
    {
      var i :| 0 <= i < |rs| && rs[i] == resp;
      assert acc[i] in acc;
    }
  }
}
