/** The zone services `create_zone`, `join_zone` and `leave_zone`: how a
    request is validated, reconciled with the master's current zone into one
    absolute member list, and applied with a single `setZone` call followed
    by one refresh per distinct coordinator. Also the last-source cache that
    `create_zone` reads and writes. */
module Zones {
  import opened Wrappers
  import opened Text
  import opened Seqs
  import opened Client
  import opened Utils
  import opened Store

  datatype Mode = Create | Join | Leave

  function ParseMode(mode: string): Option<Mode> {
    if mode == "create" then Some(Create)
    else if mode == "join" then Some(Join)
    else if mode == "leave" then Some(Leave)
    else None
  }

  /** The `HomeAssistantError`s the services raise. */
  datatype ZoneError =
    | MasterListedAsMember
    | NotRegistered(entityId: string)
    | DataUnavailable(entityId: string)
    | MasterStateUnavailable
    | NotLeadingZone
    | SpeakerInfoUnavailable
    | UnsupportedMode(mode: string)

  /** What a config entry keeps: its coordinator (by identity), the
      client's control address and the coordinator's latest state. */
  datatype EntryData = EntryData(coordinator: nat, controlIp: string, state: Option<DeviceState>)

  // ---------------------------------------------------------------------
  // Resolving entities

  /** `_get_entry_data_from_entity`. `registry` maps an entity id to its
      config entry id (an entity without one is absent), `entries` maps a
      config entry id to the data the integration stored for it. */
  function LookupEntry(registry: map<string, string>, entries: map<string, EntryData>, entityId: string): Result<EntryData, ZoneError> {
    if entityId !in registry then Err(NotRegistered(entityId))
    else if registry[entityId] !in entries then Err(DataUnavailable(entityId))
    else Ok(entries[registry[entityId]])
  }

  /** A list comprehension whose element expression may raise: the first
      failure, in list order, is the result. */
  function Traverse<A, B>(xs: seq<A>, f: A -> Result<B, ZoneError>): (r: Result<seq<B>, ZoneError>)
    ensures r.Ok? <==> forall i :: 0 <= i < |xs| ==> f(xs[i]).Ok?
    ensures r.Ok? ==> |r.value| == |xs| && forall i :: 0 <= i < |xs| ==> f(xs[i]).Ok? && r.value[i] == f(xs[i]).value
    ensures r.Err? ==> exists i :: 0 <= i < |xs| && f(xs[i]) == Err(r.error)
                                   && forall j :: 0 <= j < i ==> f(xs[j]).Ok?
    decreases |xs|
  {
    if xs == [] then Ok([])
    else
      match f(xs[0])
      case Err(e) => Err(e)
      case Ok(y) =>
        var rest := Traverse(xs[1..], f);
        assert forall i :: 1 <= i < |xs| ==> xs[1..][i - 1] == xs[i];
        match rest
        case Err(e) => Err(e)
        case Ok(ys) => Ok([y] + ys)
  }

  /** The member entries, looked up in request order. */
  function LookupAll(registry: map<string, string>, entries: map<string, EntryData>, ids: seq<string>): Result<seq<EntryData>, ZoneError> {
    Traverse(ids, id => LookupEntry(registry, entries, id))
  }

  /** `_entry_to_zone_member`: the speaker at its control address, named by
      its device id; a speaker without state or id cannot be used. */
  function EntryToZoneMember(e: EntryData): (r: Result<ZoneMember, ZoneError>)
    ensures r.Ok? <==> e.state.Some? && e.state.value.deviceId != ""
    ensures r.Ok? ==> r.value.ip == e.controlIp && r.value.mac == e.state.value.deviceId
    ensures r.Err? ==> r.error == SpeakerInfoUnavailable
  {
    if e.state.None? || e.state.value.deviceId == "" then Err(SpeakerInfoUnavailable)
    else Ok(ZoneMember(e.controlIp, e.state.value.deviceId))
  }

  function ToZoneMembers(es: seq<EntryData>): Result<seq<ZoneMember>, ZoneError> {
    Traverse(es, EntryToZoneMember)
  }

  // ---------------------------------------------------------------------
  // Member lists

  /** The key `_unique_members` and `_filter_non_master_members` use. */
  function MacKey(m: ZoneMember): string {
    Lower(m.mac)
  }

  predicate KeepMember(masterMac: string, m: ZoneMember) {
    m.mac != "" && Lower(m.mac) != Lower(masterMac)
  }

  function KeepFor(masterMac: string): ZoneMember -> bool {
    (m: ZoneMember) => KeepMember(masterMac, m)
  }

  /** `_filter_non_master_members`: drops the members with an empty MAC and
      those whose MAC is the master's, ignoring case, and keeps the others
      in their order, repeats included. */
  function NonMasterMembers(masterMac: string, ms: seq<ZoneMember>): (r: seq<ZoneMember>)
    ensures SubSeq(r, ms)
    ensures forall m :: m in r <==> m in ms && KeepMember(masterMac, m)
    ensures forall m :: multiset(r)[m] == if KeepMember(masterMac, m) then multiset(ms)[m] else 0
  {
    FilterSubSeq(ms, KeepFor(masterMac));
    FilterCount(ms, KeepFor(masterMac));
    Filter(ms, KeepFor(masterMac))
  }

  /** A list with no empty and no master MAC passes the filter whole. */
  lemma NonMasterMembersKeepsOthers(masterMac: string, ms: seq<ZoneMember>)
    requires forall i :: 0 <= i < |ms| ==> KeepMember(masterMac, ms[i])
    ensures NonMasterMembers(masterMac, ms) == ms
  {
    FilterAll(ms, KeepFor(masterMac));
  }

  method FilterNonMasterMembers(masterMac: string, members: Option<seq<ZoneMember>>) returns (filtered: seq<ZoneMember>)
    ensures filtered == NonMasterMembers(masterMac, OrNil(members))
  {
    var ms := OrNil(members);
    var masterMacLower := Lower(masterMac);
    filtered := [];
    var i := 0;
    while i < |ms|
      invariant 0 <= i <= |ms|
      invariant filtered == NonMasterMembers(masterMac, ms[..i])
    {
      var member := ms[i];
      assert ms[..i + 1] == ms[..i] + [member];
      FilterSnoc(ms[..i], member, KeepFor(masterMac));
      var mac := Lower(member.mac);
      if !(mac == "" || mac == masterMacLower) {
        filtered := filtered + [member];
      }
      i := i + 1;
    }
    assert ms[..i] == ms;
  }

  predicate NonEmptyKey(k: string) {
    k != ""
  }

  /** The non-empty keys of the members, in order, with repetitions. */
  function KeysOf(ms: seq<ZoneMember>): seq<string> {
    Filter(Map(ms, MacKey), NonEmptyKey)
  }

  /** The keys of `_unique_members`' dict, in insertion order. */
  function MacKeys(ms: seq<ZoneMember>): seq<string> {
    Distinct(KeysOf(ms))
  }

  /** The position of the last member with a given key. */
  function LastIndex(ms: seq<ZoneMember>, k: string): (i: nat)
    requires k in Map(ms, MacKey)
    ensures i < |ms| && MacKey(ms[i]) == k
    ensures forall j :: i < j < |ms| ==> MacKey(ms[j]) != k
    decreases |ms|
  {
    var init, last := ms[..|ms| - 1], ms[|ms| - 1];
    if MacKey(last) == k then |ms| - 1
    else
      assert Map(ms, MacKey) == Map(init, MacKey) + [MacKey(last)];
      LastIndex(init, k)
  }

  /** The last member with a given key: the value the dict ends up holding. */
  function LastWithKey(ms: seq<ZoneMember>, k: string): ZoneMember
    requires k in Map(ms, MacKey)
  {
    ms[LastIndex(ms, k)]
  }

  lemma KeyInKeys(ms: seq<ZoneMember>, k: string)
    requires k in MacKeys(ms)
    ensures k != "" && k in Map(ms, MacKey)
  {
  }

  /** `_unique_members`: one member per non-empty lower-cased MAC, in the
      order the MACs are first seen, each holding the last member seen
      with that MAC. */
  function UniqueByMac(ms: seq<ZoneMember>): (r: seq<ZoneMember>)
    ensures |r| == |MacKeys(ms)|
    ensures forall i :: 0 <= i < |r| ==> MacKey(r[i]) == MacKeys(ms)[i]
  {
    var ks := MacKeys(ms);
    seq(|ks|, i requires 0 <= i < |ks| => KeyInKeys(ms, ks[i]); LastWithKey(ms, ks[i]))
  }

  /** The keys of the result are the distinct non-empty keys in first-seen
      order, and each entry is the last member with its key. */
  lemma UniqueByMacSpec(ms: seq<ZoneMember>)
    ensures Map(UniqueByMac(ms), MacKey) == MacKeys(ms)
    ensures NoDup(Map(UniqueByMac(ms), MacKey))
    ensures forall m :: m in UniqueByMac(ms) ==> m in ms && MacKey(m) != ""
    ensures forall i, j :: 0 <= i < j < |UniqueByMac(ms)| ==>
              IndexOf(KeysOf(ms), MacKey(UniqueByMac(ms)[i])) < IndexOf(KeysOf(ms), MacKey(UniqueByMac(ms)[j]))
  {
    var u, ks := UniqueByMac(ms), MacKeys(ms);
    forall i | 0 <= i < |u| ensures MacKey(u[i]) == ks[i] && u[i] in ms && ks[i] != "" && ks[i] in KeysOf(ms) {
      KeyInKeys(ms, ks[i]);
      assert u[i] == LastWithKey(ms, ks[i]);
    }
    assert Map(u, MacKey) == ks;
    DistinctFirstSeen(KeysOf(ms));
    forall i, j | 0 <= i < j < |u|
      ensures IndexOf(KeysOf(ms), MacKey(u[i])) < IndexOf(KeysOf(ms), MacKey(u[j]))
    {
      assert MacKey(u[i]) == ks[i] && MacKey(u[j]) == ks[j];
    }
  }

  /** Each entry is the last member of the input with its key. */
  lemma UniqueByMacKeepsLast(ms: seq<ZoneMember>)
    ensures forall i :: 0 <= i < |UniqueByMac(ms)| ==>
              exists p :: 0 <= p < |ms| && UniqueByMac(ms)[i] == ms[p]
                          && forall j :: p < j < |ms| ==> MacKey(ms[j]) != MacKey(ms[p])
  {
    var u, ks := UniqueByMac(ms), MacKeys(ms);
    forall i | 0 <= i < |u|
      ensures exists p :: 0 <= p < |ms| && u[i] == ms[p] && forall j :: p < j < |ms| ==> MacKey(ms[j]) != MacKey(ms[p])
    {
      KeyInKeys(ms, ks[i]);
      var p := LastIndex(ms, ks[i]);
      assert u[i] == ms[p];
    }
  }

  /** The set of non-empty keys a member list names. */
  function KeySet(ms: seq<ZoneMember>): set<string> {
    set m | m in ms && m.mac != "" :: MacKey(m)
  }

  /** Deduplicating keeps exactly the non-empty keys. */
  lemma UniqueKeySet(ms: seq<ZoneMember>)
    ensures KeySet(UniqueByMac(ms)) == KeySet(ms)
  {
    var u, ks := UniqueByMac(ms), MacKeys(ms);
    UniqueByMacSpec(ms);
    forall k | k in KeySet(ms) ensures k in KeySet(u) {
      var m :| m in ms && m.mac != "" && k == MacKey(m);
      var i :| 0 <= i < |ms| && ms[i] == m;
      assert Map(ms, MacKey)[i] == k;
      assert |k| == |m.mac|;
      assert k in KeysOf(ms);
      var j :| 0 <= j < |ks| && ks[j] == k;
      assert Map(u, MacKey)[j] == k;
      assert |u[j].mac| == |MacKey(u[j])|;
    }
    forall k | k in KeySet(u) ensures k in KeySet(ms) {
      var m :| m in u && m.mac != "" && k == MacKey(m);
    }
  }

  /** Deduplicating does not change the zone's MAC set. */
  lemma UniqueSameZone(ms: seq<ZoneMember>)
    ensures SameZone(Some(UniqueByMac(ms)), Some(ms))
  {
    var u, ks := UniqueByMac(ms), MacKeys(ms);
    UniqueByMacSpec(ms);
    forall y | y in ms && y.mac != "" ensures exists x :: x in u && Lower(x.mac) == Lower(y.mac) {
      var i :| 0 <= i < |ms| && ms[i] == y;
      assert Map(ms, MacKey)[i] == MacKey(y);
      assert |MacKey(y)| == |y.mac|;
      assert MacKey(y) in KeysOf(ms);
      var j :| 0 <= j < |ks| && ks[j] == MacKey(y);
      assert Map(u, MacKey)[j] == MacKey(y);
    }
    MacSetByMacs(u, ms);
  }

  /** How the keys and the last values change when one member is appended. */
  lemma UniqueStep(prefix: seq<ZoneMember>, member: ZoneMember)
    ensures Map(prefix + [member], MacKey) == Map(prefix, MacKey) + [MacKey(member)]
    ensures KeysOf(prefix + [member]) == KeysOf(prefix) + (if MacKey(member) != "" then [MacKey(member)] else [])
    ensures LastWithKey(prefix + [member], MacKey(member)) == member
    ensures forall k :: k in Map(prefix, MacKey) && k != MacKey(member) ==>
              LastWithKey(prefix + [member], k) == LastWithKey(prefix, k)
  {
    MapSnoc(prefix, member, MacKey);
    FilterSnoc(Map(prefix, MacKey), MacKey(member), NonEmptyKey);
    assert (prefix + [member])[..|prefix|] == prefix;
  }

  /** The dict `_unique_members` has built after a prefix of its input:
      its keys in insertion order, and the last member seen for each. */
  ghost predicate DictAfter(prefix: seq<ZoneMember>, keys: seq<string>, unique: map<string, ZoneMember>) {
    && keys == MacKeys(prefix)
    && (forall k :: k in unique <==> k in keys)
    && (forall k :: k in keys ==> k in Map(prefix, MacKey) && unique[k] == LastWithKey(prefix, k))
  }

  lemma DictKeysStep(prefix: seq<ZoneMember>, member: ZoneMember, keys: seq<string>, unique: map<string, ZoneMember>)
    requires DictAfter(prefix, keys, unique)
    ensures var mac := MacKey(member);
      (if mac == "" || mac in unique then keys else keys + [mac]) == MacKeys(prefix + [member])
  {
    var mac := MacKey(member);
    UniqueStep(prefix, member);
    if mac == "" {
      assert KeysOf(prefix + [member]) == KeysOf(prefix);
    } else {
      DistinctSnoc(KeysOf(prefix), mac);
      assert mac in unique <==> mac in KeysOf(prefix);
    }
  }

  lemma DictValuesStep(prefix: seq<ZoneMember>, member: ZoneMember, keys: seq<string>, unique: map<string, ZoneMember>)
    requires DictAfter(prefix, keys, unique)
    ensures var mac := MacKey(member);
      var keys', unique' := (if mac == "" || mac in unique then keys else keys + [mac]),
                            (if mac == "" then unique else unique[mac := member]);
      forall k :: k in keys' ==> k in Map(prefix + [member], MacKey) && unique'[k] == LastWithKey(prefix + [member], k)
  {
    var mac := MacKey(member);
    UniqueStep(prefix, member);
    forall k | k in keys ensures k != "" {
      KeyInKeys(prefix, k);
    }
  }

  method UniqueMembers(members: seq<ZoneMember>) returns (r: seq<ZoneMember>)
    ensures r == UniqueByMac(members)
  {
    var keys: seq<string> := [];
    var unique: map<string, ZoneMember> := map[];
    var i := 0;
    while i < |members|
      invariant 0 <= i <= |members|
      invariant DictAfter(members[..i], keys, unique)
    {
      var member := members[i];
      assert members[..i + 1] == members[..i] + [member];
      DictKeysStep(members[..i], member, keys, unique);
      DictValuesStep(members[..i], member, keys, unique);
      var mac := Lower(member.mac);
      if mac != "" {
        if mac !in unique {
          keys := keys + [mac];
        }
        unique := unique[mac := member];
      }
      i := i + 1;
    }
    assert members[..i] == members;
    r := seq(|keys|, j requires 0 <= j < |keys| => unique[keys[j]]);
  }

  // ---------------------------------------------------------------------
  // Reconciling a request with the current zone

  /** Join's `members_to_modify`: the requested members not yet in the zone. */
  function Newcomers(current: seq<ZoneMember>, requested: seq<ZoneMember>): seq<ZoneMember> {
    Filter(requested, (m: ZoneMember) => !MacIn(current, m.mac))
  }

  /** Leave's `members_to_modify`: the requested members that are in the zone. */
  function Leavers(current: seq<ZoneMember>, requested: seq<ZoneMember>): seq<ZoneMember> {
    Filter(requested, (m: ZoneMember) => MacIn(current, m.mac))
  }

  /** Leave's `remove_set`: the lower-cased non-empty MACs to drop. */
  function RemoveSet(gone: seq<ZoneMember>): set<string> {
    set m | m in gone && m.mac != "" :: Lower(m.mac)
  }

  /** Leave's target: the current members, in order, whose lower-cased MAC
      is not to be removed. */
  function Remaining(current: seq<ZoneMember>, removed: set<string>): seq<ZoneMember> {
    Filter(current, NotRemoved(removed))
  }

  function NotRemoved(removed: set<string>): ZoneMember -> bool {
    (m: ZoneMember) => Lower(m.mac) !in removed
  }

  /** The mutation one request asks for, before the no-change check:
      `None` is the early return of a join with no new member or a leave
      with no present member. */
  function Target(mode: Mode, current: seq<ZoneMember>, requested: seq<ZoneMember>): (r: Option<seq<ZoneMember>>)
    ensures r.None? <==> (mode == Join && Newcomers(current, requested) == [])
                         || (mode == Leave && Leavers(current, requested) == [])
  {
    match mode
    case Create => Some(UniqueByMac(requested))
    case Join =>
      (var joining := Newcomers(current, requested);
       if joining == [] then None else Some(UniqueByMac(current + joining)))
    case Leave =>
      (var gone := Leavers(current, requested);
       if gone == [] then None else Some(Remaining(current, RemoveSet(gone))))
  }

  /** A join changes nothing exactly when every requested speaker is in
      the zone already. */
  lemma JoinAllPresent(current: seq<ZoneMember>, requested: seq<ZoneMember>)
    ensures Target(Join, current, requested) == None
            <==> forall i :: 0 <= i < |requested| ==> MacIn(current, requested[i].mac)
  {
    FilterEmpty(requested, (m: ZoneMember) => !MacIn(current, m.mac));
  }

  /** A join names every current member plus exactly the new ones. */
  lemma JoinKeySet(current: seq<ZoneMember>, requested: seq<ZoneMember>)
    requires Target(Join, current, requested).Some?
    ensures var t := Target(Join, current, requested).value;
      KeySet(t) == KeySet(current) + KeySet(Newcomers(current, requested))
      && KeySet(current) <= KeySet(t)
  {
    var joining := Newcomers(current, requested);
    UniqueKeySet(current + joining);
    assert KeySet(current + joining) == KeySet(current) + KeySet(joining) by {
      forall k | k in KeySet(current + joining) ensures k in KeySet(current) + KeySet(joining) {
        var m :| m in current + joining && m.mac != "" && k == MacKey(m);
      }
    }
  }

  /** A leave changes nothing exactly when none of the requested speakers
      is in the zone. */
  lemma LeaveNonePresent(current: seq<ZoneMember>, requested: seq<ZoneMember>)
    ensures Target(Leave, current, requested) == None
            <==> forall i :: 0 <= i < |requested| ==> !MacIn(current, requested[i].mac)
  {
    FilterEmpty(requested, (m: ZoneMember) => MacIn(current, m.mac));
  }

  /** A leave only ever removes: the target is the current members in
      their order, with every occurrence of a removed MAC dropped and every
      other member kept as often as it occurs. */
  lemma LeaveOnlyRemoves(current: seq<ZoneMember>, requested: seq<ZoneMember>)
    requires Target(Leave, current, requested).Some?
    ensures var t := Target(Leave, current, requested).value;
      var removed := RemoveSet(Leavers(current, requested));
      && SubSeq(t, current)
      && (forall m :: m in t <==> m in current && Lower(m.mac) !in removed)
      && forall m :: multiset(t)[m] == if Lower(m.mac) !in removed then multiset(current)[m] else 0
  {
    var removed := RemoveSet(Leavers(current, requested));
    FilterSubSeq(current, NotRemoved(removed));
    FilterCount(current, NotRemoved(removed));
  }

  /** When all MACs are already stripped (as the zone reply and device ids
      normally give them), a leave that goes through drops at least one
      current member. */
  lemma LeaveShrinks(current: seq<ZoneMember>, requested: seq<ZoneMember>)
    requires forall m :: m in current ==> IsStripped(m.mac)
    requires forall m :: m in requested ==> IsStripped(m.mac)
    requires Target(Leave, current, requested).Some?
    ensures |Target(Leave, current, requested).value| < |current|
  {
    var gone := Leavers(current, requested);
    var rs := RemoveSet(gone);
    var g := gone[0];
    assert g in gone;
    MacInSpec(current, g.mac);
    var c :| c in current && NormalizeMac(Some(c.mac)) == NormalizeMac(Some(g.mac));
    StrippedIsFixed(c.mac);
    StrippedIsFixed(g.mac);
    assert NormalizeMac(Some("")) == "";
    assert g.mac != "";
    assert Lower(g.mac) in rs;
    var i :| 0 <= i < |current| && current[i] == c;
    FilterDrops(current, NotRemoved(rs), i);
  }

  /** A create whose requested members already form the current MAC set
      asks for no change. */
  lemma CreateSameSet(current: seq<ZoneMember>, requested: seq<ZoneMember>)
    requires SameZone(Some(current), Some(requested))
    ensures SameZone(Some(current), Some(Target(Create, current, requested).value))
  {
    UniqueSameZone(requested);
  }

  // ---------------------------------------------------------------------
  // The last-source cache

  /** `_get_last_source`: the trimmed entry under the lower-cased device
      id; an empty id or a blank entry gives `None`. */
  function CachedSource(cache: map<string, string>, deviceId: Option<string>): (r: Option<string>)
    ensures deviceId.None? || deviceId.value == "" ==> r == None
    ensures r.Some? ==> r.value != "" && IsStripped(r.value)
  {
    if deviceId.None? || deviceId.value == "" then None
    else
      var key := Lower(deviceId.value);
      var cached := Strip(if key in cache then cache[key] else "");
      StripIsStripped(if key in cache then cache[key] else "");
      if cached == "" then None else Some(cached)
  }

  /** `_set_last_source`: stores the trimmed source under the lower-cased
      device id; an empty id or a blank source leaves the cache as it was. */
  function WithSource(cache: map<string, string>, deviceId: Option<string>, source: string): (r: map<string, string>)
    ensures deviceId.None? || deviceId.value == "" || Strip(source) == "" ==> r == cache
    ensures cache.Keys <= r.Keys
    ensures forall k :: k in cache && (deviceId.None? || k != Lower(deviceId.value)) ==> r[k] == cache[k]
  {
    if deviceId.None? || deviceId.value == "" then cache
    else
      var normalized := Strip(source);
      if normalized == "" then cache
      else cache[Lower(deviceId.value) := normalized]
  }

  /** What was stored is what is read back, trimmed; a store that was
      ignored leaves the previous answer. */
  lemma LastSourceRoundTrip(cache: map<string, string>, deviceId: string, source: string)
    ensures CachedSource(WithSource(cache, Some(deviceId), source), Some(deviceId))
            == if deviceId != "" && Strip(source) != "" then Some(Strip(source)) else CachedSource(cache, Some(deviceId))
  {
    StripIdempotent(source);
  }

  /** The cache is keyed case-insensitively. */
  lemma LastSourceIgnoresCase(cache: map<string, string>, deviceId: string)
    ensures CachedSource(cache, Some(Upper(deviceId))) == CachedSource(cache, Some(deviceId))
  {
    LowerOfUpper(deviceId);
    UpperIsUppered(deviceId);
  }

  /** Storing for one device does not change what another device reads. */
  lemma LastSourceOtherDevice(cache: map<string, string>, deviceId: string, other: string, source: string)
    requires Lower(other) != Lower(deviceId)
    ensures CachedSource(WithSource(cache, Some(deviceId), source), Some(other)) == CachedSource(cache, Some(other))
  {
  }

  /** Every value the setter writes is trimmed and non-empty. */
  lemma WithSourceKeepsClean(cache: map<string, string>, deviceId: Option<string>, source: string)
    requires forall k :: k in cache ==> cache[k] != "" && IsStripped(cache[k])
    ensures var c := WithSource(cache, deviceId, source);
      forall k :: k in c ==> c[k] != "" && IsStripped(c[k])
  {
    StripIsStripped(source);
  }

  method SetLastSource(store: DomainData, deviceId: Option<string>, source: string)
    modifies store`lastSource
    ensures store.lastSource == WithSource(old(store.lastSource), deviceId, source)
  {
    if deviceId.None? || deviceId.value == "" {
      return;
    }
    var normalized := Strip(source);
    if normalized == "" {
      return;
    }
    store.lastSource := store.lastSource[Lower(deviceId.value) := normalized];
  }

  /** The source a create selects: the cached one, else `AUX`. */
  function DesiredSource(cache: map<string, string>, deviceId: string): (r: string)
    ensures r != "" && IsStripped(r)
    ensures CachedSource(cache, Some(deviceId)).None? ==> r == "AUX"
  {
    var cached := CachedSource(cache, Some(deviceId));
    if cached.Some? then cached.value else "AUX"
  }

  // ---------------------------------------------------------------------
  // Refreshing

  function CoordinatorOf(e: EntryData): nat {
    e.coordinator
  }

  /** `_async_refresh`: one refresh request per distinct coordinator, in
      the order first named. What a refresh returns is not looked at. */
  method Refresh(targets: seq<EntryData>) returns (issued: seq<nat>)
    ensures issued == Distinct(Map(targets, CoordinatorOf))
    ensures NoDup(issued) && forall e :: e in targets ==> e.coordinator in issued
  {
    var seen: set<nat> := {};
    issued := [];
    var i := 0;
    while i < |targets|
      invariant 0 <= i <= |targets|
      invariant issued == Distinct(Map(targets[..i], CoordinatorOf))
      invariant forall c :: c in seen <==> c in issued
    {
      var entry := targets[i];
      assert targets[..i + 1] == targets[..i] + [entry];
      MapSnoc(targets[..i], entry, CoordinatorOf);
      DistinctSnoc(Map(targets[..i], CoordinatorOf), entry.coordinator);
      if entry.coordinator !in seen {
        seen := seen + {entry.coordinator};
        issued := issued + [entry.coordinator];
      }
      i := i + 1;
    }
    assert targets[..i] == targets;
    forall e | e in targets ensures e.coordinator in issued {
      MapMember(targets, CoordinatorOf, e);
    }
  }

  // ---------------------------------------------------------------------
  // The service

  /** The outcome of a request that passes validation. */
  datatype Decision =
    | Unchanged
    | Apply(target: seq<ZoneMember>, source: Option<string>, masterDeviceId: string, refresh: seq<EntryData>)

  /** The reconciliation proper, for a master in state `st` and the
      requested members: the target for the mode, then the no-change
      check; only a create selects a source. */
  function Plan(m: Mode, st: DeviceState, requested: seq<ZoneMember>, lastSource: map<string, string>,
                refresh: seq<EntryData>): (r: Decision)
    ensures var current := NonMasterMembers(st.deviceId, st.zoneMembers);
      r.Unchanged? <==> Target(m, current, requested).None? || SameZone(Some(current), Target(m, current, requested))
    ensures r.Apply? ==> r.masterDeviceId == st.deviceId && r.refresh == refresh && (r.source.Some? <==> m == Create)
    ensures r.Apply? ==> Target(m, NonMasterMembers(st.deviceId, st.zoneMembers), requested) == Some(r.target)
    ensures r.Apply? && m == Create ==> r.source == Some(DesiredSource(lastSource, st.deviceId))
  {
    var current := NonMasterMembers(st.deviceId, st.zoneMembers);
    match Target(m, current, requested)
    case None => Unchanged
    case Some(t) =>
      if SameZone(Some(current), Some(t)) then Unchanged
      else
        var source := if m == Create then Some(DesiredSource(lastSource, st.deviceId)) else None;
        Apply(t, source, st.deviceId, refresh)
  }

  /** The computation of `_async_apply_zone_service`, up to the device
      calls: the validation in the order the source performs it, then the
      plan. */
  function Decide(registry: map<string, string>, entries: map<string, EntryData>, lastSource: map<string, string>,
                  mode: string, masterId: string, memberIds: seq<string>): (r: Result<Decision, ZoneError>)
    ensures masterId in memberIds ==> r == Err(MasterListedAsMember)
    ensures ParseMode(mode).None? ==> r.Err?
    ensures r.Ok? ==> LookupEntry(registry, entries, masterId).Ok? && LookupEntry(registry, entries, masterId).value.state.Some?
  {
    if masterId in memberIds then Err(MasterListedAsMember)
    else
      match LookupEntry(registry, entries, masterId)
      case Err(e) => Err(e)
      case Ok(master) =>
        match LookupAll(registry, entries, memberIds)
        case Err(e) => Err(e)
        case Ok(memberEntries) =>
          if master.state.None? then Err(MasterStateUnavailable)
          else
            var st := master.state.value;
            if (mode == "join" || mode == "leave") && !st.isMaster then Err(NotLeadingZone)
            else
              match ToZoneMembers(memberEntries)
              case Err(e) => Err(e)
              case Ok(requested) =>
                match ParseMode(mode)
                case None => Err(UnsupportedMode(mode))
                case Some(m) => Ok(Plan(m, st, requested, lastSource, [master] + memberEntries))
  }

  /** Everything a request must satisfy to be accepted. Leadership of a
      zone is required for join and leave only. */
  predicate Admissible(registry: map<string, string>, entries: map<string, EntryData>, mode: string, masterId: string, memberIds: seq<string>) {
    var master := LookupEntry(registry, entries, masterId);
    && masterId !in memberIds
    && master.Ok?
    && (forall i :: 0 <= i < |memberIds| ==> LookupEntry(registry, entries, memberIds[i]).Ok?)
    && master.value.state.Some?
    && ((mode == "join" || mode == "leave") ==> master.value.state.value.isMaster)
    && (forall i :: 0 <= i < |memberIds| ==> EntryToZoneMember(LookupEntry(registry, entries, memberIds[i]).value).Ok?)
    && ParseMode(mode).Some?
  }

  /** A request is rejected exactly when it is not admissible. */
  lemma DecideAccepts(registry: map<string, string>, entries: map<string, EntryData>, lastSource: map<string, string>,
                      mode: string, masterId: string, memberIds: seq<string>)
    ensures Decide(registry, entries, lastSource, mode, masterId, memberIds).Ok?
            <==> Admissible(registry, entries, mode, masterId, memberIds)
  {
    var lookups := LookupAll(registry, entries, memberIds);
    if lookups.Ok? {
      var es := lookups.value;
      forall i | 0 <= i < |memberIds| ensures es[i] == LookupEntry(registry, entries, memberIds[i]).value {
      }
      var zs := ToZoneMembers(es);
      assert zs.Ok? <==> forall i :: 0 <= i < |es| ==> EntryToZoneMember(es[i]).Ok?;
    }
  }

  /** An accepted change is the target `Target` computes for the parsed
      mode from the master's zone without the master and the requested
      speakers; it is never a no-op on the MAC set, a create selects the
      source `DesiredSource` picks, and the master and every requested
      speaker are refreshed, in that order. */
  lemma DecideApplyChanges(registry: map<string, string>, entries: map<string, EntryData>, lastSource: map<string, string>,
                           mode: string, masterId: string, memberIds: seq<string>)
    requires Decide(registry, entries, lastSource, mode, masterId, memberIds).Ok?
    requires Decide(registry, entries, lastSource, mode, masterId, memberIds).value.Apply?
    ensures var master := LookupEntry(registry, entries, masterId).value;
      var st := master.state.value;
      var es := LookupAll(registry, entries, memberIds).value;
      var current := NonMasterMembers(st.deviceId, st.zoneMembers);
      var d := Decide(registry, entries, lastSource, mode, masterId, memberIds).value;
      && ParseMode(mode).Some? && ToZoneMembers(es).Ok?
      && Target(ParseMode(mode).value, current, ToZoneMembers(es).value) == Some(d.target)
      && !SameZone(Some(current), Some(d.target))
      && d.masterDeviceId == st.deviceId
      && d.source == (if mode == "create" then Some(DesiredSource(lastSource, st.deviceId)) else None)
      && d.refresh == [master] + es
      && |d.refresh| == |memberIds| + 1
  {
    var es := LookupAll(registry, entries, memberIds).value;
    assert |es| == |memberIds|;
  }

  /** The requests the device and the coordinators receive. */
  datatype Call =
    | SetZoneCall(members: seq<ZoneMember>)
    | SelectSourceCall(source: string)
    | RefreshCall(coordinator: nat)

  function AsRefreshCall(c: nat): Call {
    RefreshCall(c)
  }

  /** Why a request did not complete: a validation error, or the device
      failing the `setZone` call. */
  datatype Failure = Rejected(reason: ZoneError) | DeviceFailed

  /** The target computation of `_async_apply_zone_service`, with the
      dictionary-based `_unique_members`. */
  method ComputeTarget(m: Mode, current: seq<ZoneMember>, requested: seq<ZoneMember>)
    returns (target: Option<seq<ZoneMember>>)
    ensures target == Target(m, current, requested)
  {
    if m == Create {
      var t := UniqueMembers(requested);
      return Some(t);
    } else if m == Join {
      var joining := Newcomers(current, requested);
      if joining == [] {
        return None;
      }
      var t := UniqueMembers(current + joining);
      return Some(t);
    } else {
      var gone := Leavers(current, requested);
      if gone == [] {
        return None;
      }
      return Some(Remaining(current, RemoveSet(gone)));
    }
  }

  /** The reconciliation of `_async_apply_zone_service` once the request
      is validated: filter the master out, compute the target, compare. */
  method PlanRequest(m: Mode, st: DeviceState, requested: seq<ZoneMember>, lastSource: map<string, string>,
                     refresh: seq<EntryData>) returns (d: Decision)
    ensures d == Plan(m, st, requested, lastSource, refresh)
  {
    var current := FilterNonMasterMembers(st.deviceId, Some(st.zoneMembers));
    var target := ComputeTarget(m, current, requested);
    if target.None? {
      return Unchanged;
    }
    var same := SameZoneMembers(Some(current), Some(target.value));
    if same {
      return Unchanged;
    }
    var source: Option<string> := None;
    if m == Create {
      source := Some(DesiredSource(lastSource, st.deviceId));
    }
    return Apply(target.value, source, st.deviceId, refresh);
  }

  /** The device calls of `_async_apply_zone_service` for a decision:
      nothing for no change; otherwise one `setZone` with the full target
      list, whose failure ends the request, then (create only) the source
      selection, whose failure is swallowed and which is remembered only on
      success, then the refreshes. */
  method Execute(store: DomainData, d: Decision, setZoneOk: bool, selectOk: bool)
    returns (calls: seq<Call>, failure: Option<Failure>)
    modifies store`lastSource
    ensures match d
      case Unchanged => calls == [] && failure == None && store.lastSource == old(store.lastSource)
      case Apply(t, source, deviceId, refresh) =>
        if !setZoneOk then
          calls == [SetZoneCall(t)] && failure == Some(DeviceFailed) && store.lastSource == old(store.lastSource)
        else
          && failure == None
          && calls == [SetZoneCall(t)] + (if source.Some? then [SelectSourceCall(source.value)] else [])
                      + Map(Distinct(Map(refresh, CoordinatorOf)), AsRefreshCall)
          && store.lastSource == (if source.Some? && selectOk then WithSource(old(store.lastSource), Some(deviceId), source.value)
                                  else old(store.lastSource))
  {
    if d.Unchanged? {
      return [], None;
    }
    calls := [SetZoneCall(d.target)];
    if !setZoneOk {
      return calls, Some(DeviceFailed);
    }
    if d.source.Some? {
      calls := calls + [SelectSourceCall(d.source.value)];
      if selectOk {
        SetLastSource(store, Some(d.masterDeviceId), d.source.value);
      }
    }
    var issued := Refresh(d.refresh);
    calls := calls + Map(issued, AsRefreshCall);
    failure := None;
  }

  /** `_async_apply_zone_service`. `setZoneOk` / `selectOk` stand for
      whether the device accepts the `setZone` and `select` posts, and the
      device calls are recorded in order. A rejected request sends nothing
      and reports the first failing check. */
  method ApplyZoneService(store: DomainData, registry: map<string, string>, entries: map<string, EntryData>,
                          mode: string, masterId: string, memberIds: seq<string>, setZoneOk: bool, selectOk: bool)
    returns (calls: seq<Call>, failure: Option<Failure>)
    modifies store`lastSource
    ensures match Decide(registry, entries, old(store.lastSource), mode, masterId, memberIds)
      case Err(e) => calls == [] && failure == Some(Rejected(e)) && store.lastSource == old(store.lastSource)
      case Ok(Unchanged) => calls == [] && failure == None && store.lastSource == old(store.lastSource)
      case Ok(Apply(t, source, deviceId, refresh)) =>
        if !setZoneOk then
          calls == [SetZoneCall(t)] && failure == Some(DeviceFailed) && store.lastSource == old(store.lastSource)
        else
          && failure == None
          && calls == [SetZoneCall(t)] + (if source.Some? then [SelectSourceCall(source.value)] else [])
                      + Map(Distinct(Map(refresh, CoordinatorOf)), AsRefreshCall)
          && store.lastSource == (if source.Some? && selectOk then WithSource(old(store.lastSource), Some(deviceId), source.value)
                                  else old(store.lastSource))
  {
    if masterId in memberIds {
      return [], Some(Rejected(MasterListedAsMember));
    }
    var masterLookup := LookupEntry(registry, entries, masterId);
    if masterLookup.Err? {
      return [], Some(Rejected(masterLookup.error));
    }
    var master := masterLookup.value;
    var lookups := LookupAll(registry, entries, memberIds);
    if lookups.Err? {
      return [], Some(Rejected(lookups.error));
    }
    var memberEntries := lookups.value;
    if master.state.None? {
      return [], Some(Rejected(MasterStateUnavailable));
    }
    var st := master.state.value;
    if (mode == "join" || mode == "leave") && !st.isMaster {
      return [], Some(Rejected(NotLeadingZone));
    }
    var raw := ToZoneMembers(memberEntries);
    if raw.Err? {
      return [], Some(Rejected(raw.error));
    }
    var parsed := ParseMode(mode);
    if parsed.None? {
      return [], Some(Rejected(UnsupportedMode(mode)));
    }
    var d := PlanRequest(parsed.value, st, raw.value, store.lastSource, [master] + memberEntries);
    calls, failure := Execute(store, d, setZoneOk, selectOk);
  }
}
