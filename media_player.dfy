/** The media-player entity's share of the integration: the MAC-to-entity
    lookup it registers in, the zone-members cache it writes and reads
    back, the group attributes derived from both, the play-status
    classification and the source selection. */
module MediaPlayer {
  import opened Wrappers
  import opened Text
  import opened Seqs
  import opened Client
  import opened Store

  // ---------------------------------------------------------------------
  // The MAC-to-entity lookup

  /** The key a device registers under: its lower-cased id, when both the
      device id and the entity id are known. */
  function RegistrationKey(data: Option<DeviceState>, entityId: string): (k: Option<string>)
    ensures k.Some? <==> data.Some? && data.value.deviceId != "" && entityId != ""
    ensures k.Some? ==> k.value == Lower(data.value.deviceId) && k.value != ""
  {
    if data.Some? && data.value.deviceId != "" && entityId != "" then Some(Lower(data.value.deviceId)) else None
  }

  /** `_ensure_mac_registered`: the entry under the key is overwritten. */
  function Registered(lookup: map<string, string>, data: Option<DeviceState>, entityId: string): map<string, string> {
    var k := RegistrationKey(data, entityId);
    if k.Some? then lookup[k.value := entityId] else lookup
  }

  /** `_mac_entity_lookup`: the entry under the key is added only when
      there is none (`setdefault`). */
  function WithDefault(lookup: map<string, string>, data: Option<DeviceState>, entityId: string): map<string, string> {
    var k := RegistrationKey(data, entityId);
    if k.Some? && k.value !in lookup then lookup[k.value := entityId] else lookup
  }

  /** Registration makes the device's key name this entity, whatever it
      named before, and leaves every other key alone. */
  lemma RegisteredOverwrites(lookup: map<string, string>, data: Option<DeviceState>, entityId: string, other: string)
    requires RegistrationKey(data, entityId).Some?
    requires other != RegistrationKey(data, entityId).value
    ensures Registered(lookup, data, entityId)[RegistrationKey(data, entityId).value] == entityId
    ensures other in lookup <==> other in Registered(lookup, data, entityId)
    ensures other in lookup ==> Registered(lookup, data, entityId)[other] == lookup[other]
  {
  }

  /** The defaulting read never replaces an entry: a key already present
      keeps its entity, and an absent one gets this entity as registration
      would give it. */
  lemma WithDefaultKeeps(lookup: map<string, string>, data: Option<DeviceState>, entityId: string)
    ensures var k := RegistrationKey(data, entityId);
      && (k.Some? && k.value in lookup ==> WithDefault(lookup, data, entityId) == lookup)
      && (k.None? || k.value !in lookup ==> WithDefault(lookup, data, entityId) == Registered(lookup, data, entityId))
      && lookup.Keys <= WithDefault(lookup, data, entityId).Keys
  {
  }

  /** After registering, the defaulting read changes nothing. */
  lemma DefaultAfterRegistered(lookup: map<string, string>, data: Option<DeviceState>, entityId: string)
    ensures WithDefault(Registered(lookup, data, entityId), data, entityId) == Registered(lookup, data, entityId)
  {
  }

  // ---------------------------------------------------------------------
  // The zone-members cache

  /** `(zone_master_mac or device_id or "").lower()`. */
  function MasterKey(d: DeviceState): (k: string)
    ensures k == "" <==> OrEmpty(d.zoneMasterMac) == "" && d.deviceId == ""
  {
    Lower(OrEmpty(Or(d.zoneMasterMac, Some(d.deviceId))))
  }

  predicate HasMac(m: ZoneMember) {
    m.mac != ""
  }

  /** The members of the live state that carry a MAC, in order. */
  function LiveMembers(d: DeviceState): seq<ZoneMember> {
    Filter(d.zoneMembers, HasMac)
  }

  /** The device's own entry: its reported address, else the client's
      control address, and its id as MAC. */
  function SelfEntry(d: DeviceState, controlIp: string): ZoneMember {
    ZoneMember(if d.ipAddress != "" then d.ipAddress else controlIp, d.deviceId)
  }

  /** What `_cache_zone_members` stores: the live members with a MAC, or
      the device's own entry when there are none, or nothing at all when
      the device id is unknown too. */
  function CachedMembers(d: DeviceState, controlIp: string): (r: seq<ZoneMember>)
    ensures forall m :: m in r ==> m.mac != ""
    ensures r == [] <==> (forall i :: 0 <= i < |d.zoneMembers| ==> d.zoneMembers[i].mac == "") && d.deviceId == ""
    ensures (exists i :: 0 <= i < |d.zoneMembers| && d.zoneMembers[i].mac != "") ==> r == LiveMembers(d)
    ensures (forall i :: 0 <= i < |d.zoneMembers| ==> d.zoneMembers[i].mac == "") && d.deviceId != "" ==>
              r == [ZoneMember(if d.ipAddress != "" then d.ipAddress else controlIp, d.deviceId)]
  {
    FilterEmpty(d.zoneMembers, HasMac);
    var live := LiveMembers(d);
    if live == [] && d.deviceId != "" then [SelfEntry(d, controlIp)] else live
  }

  /** `_cache_zone_members` on the cache: with a non-empty master key the
      entry is always written, even when it is empty. */
  function ZoneCacheAfter(cache: map<string, seq<ZoneMember>>, d: DeviceState, controlIp: string): map<string, seq<ZoneMember>> {
    var key := MasterKey(d);
    if key == "" then cache else cache[key := CachedMembers(d, controlIp)]
  }

  /** `_get_zone_members`: the live members with a MAC when there are
      some, else the cached entry under the master key, else the device's
      own entry, else nothing. */
  function ZoneMembersView(d: DeviceState, cache: map<string, seq<ZoneMember>>, controlIp: string): (r: seq<ZoneMember>)
    ensures LiveMembers(d) != [] ==> r == LiveMembers(d)
    ensures r == [] ==> d.deviceId == "" || (MasterKey(d) in cache && cache[MasterKey(d)] == [])
    ensures LiveMembers(d) == [] && MasterKey(d) != "" && MasterKey(d) in cache ==> r == cache[MasterKey(d)]
    ensures LiveMembers(d) == [] && (MasterKey(d) == "" || MasterKey(d) !in cache) ==>
              r == (if d.deviceId != "" then [SelfEntry(d, controlIp)] else [])
  {
    var live := LiveMembers(d);
    var key := MasterKey(d);
    if live != [] then live
    else if key != "" && key in cache then cache[key]
    else if d.deviceId != "" then [SelfEntry(d, controlIp)]
    else []
  }

  /** Caching for a device under another master key does not change what
      this device reads. */
  lemma ViewIgnoresOtherKeys(d: DeviceState, other: DeviceState, cache: map<string, seq<ZoneMember>>,
                             controlIp: string, otherIp: string)
    requires MasterKey(other) != MasterKey(d)
    ensures ZoneMembersView(d, ZoneCacheAfter(cache, other, otherIp), controlIp) == ZoneMembersView(d, cache, controlIp)
  {
  }

  /** Reading right after caching gives back what was cached. */
  lemma ViewAfterCache(d: DeviceState, cache: map<string, seq<ZoneMember>>, controlIp: string)
    ensures ZoneMembersView(d, ZoneCacheAfter(cache, d, controlIp), controlIp) == CachedMembers(d, controlIp)
  {
    FilterEmpty(d.zoneMembers, HasMac);
    if MasterKey(d) == "" {
      assert d.deviceId == "";
    }
  }

  /** A speaker whose live reply lists no members reads the list its zone
      master cached, because both use the master's MAC as key. */
  lemma SlaveReadsMasterCache(master: DeviceState, slave: DeviceState, cache: map<string, seq<ZoneMember>>,
                              masterIp: string, slaveIp: string)
    requires MasterKey(master) != "" && MasterKey(slave) == MasterKey(master)
    requires forall m :: m in slave.zoneMembers ==> m.mac == ""
    ensures ZoneMembersView(slave, ZoneCacheAfter(cache, master, masterIp), slaveIp) == CachedMembers(master, masterIp)
  {
    FilterEmpty(slave.zoneMembers, HasMac);
  }

  /** Live members with a MAC always win over the cache. */
  lemma LiveMembersWin(d: DeviceState, cache: map<string, seq<ZoneMember>>, controlIp: string)
    requires exists m :: m in d.zoneMembers && m.mac != ""
    ensures ZoneMembersView(d, cache, controlIp) == LiveMembers(d)
    ensures forall m :: m in ZoneMembersView(d, cache, controlIp) <==> m in d.zoneMembers && m.mac != ""
  {
    var m :| m in d.zoneMembers && m.mac != "";
    assert m in LiveMembers(d);
  }

  // ---------------------------------------------------------------------
  // From members to entities

  /** `lookup.get(mac.lower())`, with a missing entry read as "". */
  function EntityFor(lookup: map<string, string>): ZoneMember -> string {
    (m: ZoneMember) => if Lower(m.mac) in lookup then lookup[Lower(m.mac)] else ""
  }

  predicate IsEntity(e: string) {
    e != ""
  }

  /** The entity of every member that has one, in member order. */
  function LookedUp(members: seq<ZoneMember>, lookup: map<string, string>): seq<string> {
    Filter(Map(members, EntityFor(lookup)), IsEntity)
  }

  /** What `_map_zone_members_to_entities` returns, stated as a set of
      facts: no entity twice, and exactly the entities some member maps to. */
  lemma EntitiesSpec(members: seq<ZoneMember>, lookup: map<string, string>)
    ensures var es := Distinct(LookedUp(members, lookup));
      && NoDup(es)
      && forall e :: e in es <==> e != "" && exists m :: m in members && EntityFor(lookup)(m) == e
  {
    var es := Distinct(LookedUp(members, lookup));
    var mapped := Map(members, EntityFor(lookup));
    forall e ensures e in es <==> e != "" && exists m :: m in members && EntityFor(lookup)(m) == e {
      if e in es {
        var i :| 0 <= i < |mapped| && mapped[i] == e;
        assert members[i] in members;
      }
      if e != "" && exists m :: m in members && EntityFor(lookup)(m) == e {
        var m :| m in members && EntityFor(lookup)(m) == e;
        var i :| 0 <= i < |members| && members[i] == m;
        assert mapped[i] == e;
      }
    }
  }

  // ---------------------------------------------------------------------
  // The zone attributes

  datatype ZoneAttr = ZoneAttr(master: Option<string>, isMaster: bool, slaves: seq<string>)

  /** The part of `extra_state_attributes` that describes the device and
      its zone; `soundtouchZone` and `soundtouchGroup` are present only
      when they have something to say. */
  datatype Attributes = Attributes(
    ipAddress: string,
    macAddress: string,
    zoneMaster: bool,
    zoneMasterMac: Option<string>,
    zoneMembers: seq<ZoneMember>,
    soundtouchZone: Option<ZoneAttr>,
    soundtouchGroup: Option<seq<string>>)

  /** The group: the members' entities, plus this entity when it has one
      and is not among them. */
  function GroupOf(members: seq<ZoneMember>, lookup: map<string, string>, entityId: string): seq<string> {
    var group := Distinct(LookedUp(members, lookup));
    if entityId != "" && entityId !in group then group + [entityId] else group
  }

  /** The master entity: the one registered under the master key, else
      this entity when the device leads the zone. */
  function MasterEntity(d: DeviceState, lookup: map<string, string>, entityId: string): (r: Option<string>)
    ensures r.Some? ==> r.value != ""
    ensures MasterKey(d) in lookup && lookup[MasterKey(d)] != "" ==> r == Some(lookup[MasterKey(d)])
    ensures MasterKey(d) !in lookup || lookup[MasterKey(d)] == "" ==>
              r == (if d.isMaster && entityId != "" then Some(entityId) else None)
  {
    var key := MasterKey(d);
    if key in lookup && lookup[key] != "" then Some(lookup[key])
    else if d.isMaster && entityId != "" then Some(entityId)
    else None
  }

  function NotMaster(master: Option<string>): string -> bool {
    (e: string) => Some(e) != master
  }

  /** The attributes: the device's own fields, the members as read, and
      the zone and group attributes derived from the lookup. */
  function AttributesOf(d: DeviceState, members: seq<ZoneMember>, lookup: map<string, string>, entityId: string): (r: Attributes)
    ensures r.ipAddress == d.ipAddress && r.macAddress == d.deviceId && r.zoneMaster == d.isMaster
    ensures r.zoneMasterMac == d.zoneMasterMac && r.zoneMembers == members
    ensures r.soundtouchGroup.Some? ==> r.soundtouchGroup.value == GroupOf(members, lookup, entityId) && r.soundtouchGroup.value != []
  {
    var group := GroupOf(members, lookup, entityId);
    var master := MasterEntity(d, lookup, entityId);
    var slaves := Filter(group, NotMaster(master));
    Attributes(
      d.ipAddress, d.deviceId, d.isMaster, d.zoneMasterMac, members,
      if master.Some? || slaves != [] then Some(ZoneAttr(Or(master, d.zoneMasterMac), d.isMaster, slaves)) else None,
      if group != [] then Some(group) else None)
  }

  /** The group names no entity twice, holds this entity whenever it has
      one, and otherwise only entities the members map to. */
  lemma GroupSpec(members: seq<ZoneMember>, lookup: map<string, string>, entityId: string)
    ensures var g := GroupOf(members, lookup, entityId);
      && NoDup(g)
      && (entityId != "" ==> entityId in g)
      && forall e :: e in g <==> (e == entityId && e != "")
                                 || (e != "" && exists m :: m in members && EntityFor(lookup)(m) == e)
  {
    EntitiesSpec(members, lookup);
    var group := Distinct(LookedUp(members, lookup));
    if entityId != "" && entityId !in group {
      assert forall i, j :: 0 <= i < j < |group + [entityId]| ==> (group + [entityId])[i] != (group + [entityId])[j] by {
        forall i, j | 0 <= i < j < |group + [entityId]| ensures (group + [entityId])[i] != (group + [entityId])[j] {
          if j == |group| {
            assert group[i] in group;
          }
        }
      }
    }
  }

  /** The slaves are the group minus the master entity, in group order. */
  lemma SlavesSpec(d: DeviceState, members: seq<ZoneMember>, lookup: map<string, string>, entityId: string)
    requires AttributesOf(d, members, lookup, entityId).soundtouchZone.Some?
    ensures var z := AttributesOf(d, members, lookup, entityId).soundtouchZone.value;
      var master := MasterEntity(d, lookup, entityId);
      && (forall e :: e in z.slaves <==> e in GroupOf(members, lookup, entityId) && Some(e) != master)
      && (master.Some? ==> z.master == master)
      && (master.None? ==> z.master == d.zoneMasterMac)
      && z.isMaster == d.isMaster
  {
  }

  /** The zone attribute appears exactly when there is a master entity or
      some group entity other than it; the group attribute exactly when
      the group is not empty. */
  lemma ZoneShownSpec(d: DeviceState, members: seq<ZoneMember>, lookup: map<string, string>, entityId: string)
    ensures var a := AttributesOf(d, members, lookup, entityId);
      var g := GroupOf(members, lookup, entityId);
      var master := MasterEntity(d, lookup, entityId);
      && (a.soundtouchZone.Some? <==> master.Some? || exists i :: 0 <= i < |g| && Some(g[i]) != master)
      && (a.soundtouchGroup.Some? <==> g != [])
  {
    var g := GroupOf(members, lookup, entityId);
    FilterEmpty(g, NotMaster(MasterEntity(d, lookup, entityId)));
  }

  /** A device that has an entity always shows a zone attribute when it
      leads its zone. */
  lemma LeaderShowsZone(d: DeviceState, members: seq<ZoneMember>, lookup: map<string, string>, entityId: string)
    requires d.isMaster && entityId != ""
    ensures AttributesOf(d, members, lookup, entityId).soundtouchZone.Some?
    ensures AttributesOf(d, members, lookup, entityId).soundtouchGroup.Some?
  {
    GroupSpec(members, lookup, entityId);
  }

  // ---------------------------------------------------------------------
  // Play status

  datatype PlayerState = Playing | Paused | Off | Buffering | Idle

  /** `state`: no status gives none; otherwise the lower-cased status is
      read in a fixed order, `play` as prefix before `pause` anywhere. */
  function Classify(status: Option<string>): (r: Option<PlayerState>)
    ensures r.None? <==> OrEmpty(status) == ""
  {
    if status.None? || status.value == "" then None
    else
      var normalized := Lower(status.value);
      if StartsWith(normalized, "play") then Some(Playing)
      else if Contains(normalized, "pause") then Some(Paused)
      else if normalized in {"standby", "stop_state", "inactive"} then Some(Off)
      else if Contains(normalized, "buffer") then Some(Buffering)
      else Some(Idle)
  }

  /** The classification ignores the case of the status. */
  lemma ClassifyIgnoresCase(status: string)
    ensures Classify(Some(Upper(status))) == Classify(Some(status))
  {
    LowerOfUpper(status);
    assert |Upper(status)| == |status|;
  }

  /** Every character of a contained string occurs in the container. */
  lemma {:induction false} ContainsHasChars(s: string, sub: string, c: char)
    requires Contains(s, sub) && c in sub
    ensures c in s
    decreases |s|
  {
    if StartsWith(s, sub) {
      assert c in s[..|sub|];
    } else {
      ContainsHasChars(s[1..], sub, c);
      assert c in s[1..];
    }
  }

  /** None of the words for "off" starts with `p` or holds a `u`. */
  lemma OffWords(n: string)
    requires n in {"standby", "stop_state", "inactive"}
    ensures |n| > 0 && n[0] != 'p' && 'u' !in n
  {
    if n == "standby" {
    } else if n == "stop_state" {
    } else {
      assert n == "inactive";
    }
  }

  /** The idle-looking words `standby`, `stop_state` and `inactive`, in any
      case, mean the device is off. */
  lemma ClassifyOff(status: string)
    requires Lower(status) in {"standby", "stop_state", "inactive"}
    ensures Classify(Some(status)) == Some(Off)
  {
    var normalized := Lower(status);
    OffWords(normalized);
    assert "pause"[2] == 'u' && "play"[0] == 'p';
    if Contains(normalized, "pause") {
      ContainsHasChars(normalized, "pause", 'u');
    }
  }

  /** A status that starts with `play` is playing even if it also
      mentions a pause. */
  lemma ClassifyPlayFirst(status: string)
    requires StartsWith(Lower(status), "play")
    ensures Classify(Some(status)) == Some(Playing)
    ensures Classify(Some(status + "_paused")) == Some(Playing)
  {
    var longer := Lower(status + "_paused");
    assert longer[..4] == Lower(status)[..4];
  }

  // ---------------------------------------------------------------------
  // The entity

  /** Python's `self._sources or []`. */
  function SourcesOrNil(sources: Option<seq<Source>>): seq<Source> {
    if sources.Some? then sources.value else []
  }

  predicate NameMatches(s: Source, name: string) {
    Lower(s.name) == Lower(name)
  }

  /** The position of the first cached source whose name equals `name`
      ignoring case, if any. */
  function FirstNamed(cs: seq<Source>, name: string): (r: Option<nat>)
    ensures r.Some? ==> r.value < |cs| && NameMatches(cs[r.value], name)
                        && forall j :: 0 <= j < r.value ==> !NameMatches(cs[j], name)
    ensures r.None? ==> forall i :: 0 <= i < |cs| ==> !NameMatches(cs[i], name)
  {
    if |cs| == 0 then None
    else if NameMatches(cs[0], name) then Some(0)
    else
      match FirstNamed(cs[1..], name)
      case None => None
      case Some(i) => Some(i + 1)
  }

  /** A direct hit on a stripped, nameable source is also a hit for the
      client's own matching. */
  lemma DirectHitMatches(s: Source, name: string)
    requires NameMatches(s, name) && s.name != "" && IsStripped(name)
    ensures SourceMatches(s, Lower(Strip(name)))
  {
    StrippedIsFixed(name);
    assert Lower(Lower(name)) == Lower(name);
  }

  /** `SoundTouchMediaPlayer`. `store` is the shared domain data, which
      the entity sees only once `attached` (added to Home Assistant);
      `entityId` is "" when the entity has none; `data` is the
      coordinator's last state. */
  class SoundTouchMediaPlayer {
    const attached: bool
    const store: DomainData
    const entityId: string
    const client: SoundTouchClient
    var data: Option<DeviceState>
    var sources: Option<seq<Source>>

    constructor (attached: bool, store: DomainData, entityId: string, client: SoundTouchClient, data: Option<DeviceState>)
      ensures this.attached == attached && this.store == store && this.entityId == entityId && this.client == client
      ensures this.data == data && sources == None
    {
      this.attached := attached;
      this.store := store;
      this.entityId := entityId;
      this.client := client;
      this.data := data;
      sources := None;
    }

    /** `_zone_cache`: the shared cache, or an empty one while detached. */
    function ZoneCache(): map<string, seq<ZoneMember>>
      reads this, store
    {
      if attached then store.zoneCache else map[]
    }

    /** `_ensure_mac_registered`. */
    method EnsureMacRegistered()
      modifies store`macLookup
      ensures attached ==> store.macLookup == Registered(old(store.macLookup), data, entityId)
      ensures !attached ==> store.macLookup == old(store.macLookup)
    {
      if !attached {
        return;
      }
      if data.None? || data.value.deviceId == "" || entityId == "" {
        return;
      }
      store.macLookup := store.macLookup[Lower(data.value.deviceId) := entityId];
    }

    /** `_mac_entity_lookup`: the shared lookup after the defaulting write,
        or an empty one before the entity is added. */
    method MacEntityLookup() returns (lookup: map<string, string>)
      modifies store`macLookup
      ensures !attached ==> lookup == map[] && store.macLookup == old(store.macLookup)
      ensures attached ==> store.macLookup == WithDefault(old(store.macLookup), data, entityId) && lookup == store.macLookup
    {
      if !attached {
        return map[];
      }
      if data.Some? && data.value.deviceId != "" && entityId != "" {
        var key := Lower(data.value.deviceId);
        if key !in store.macLookup {
          store.macLookup := store.macLookup[key := entityId];
        }
      }
      lookup := store.macLookup;
    }

    /** `_cache_zone_members`. */
    method CacheZoneMembers()
      modifies store`zoneCache
      ensures attached && data.Some? ==>
        store.zoneCache == ZoneCacheAfter(old(store.zoneCache), data.value, client.ControlIp())
      ensures !attached || data.None? ==> store.zoneCache == old(store.zoneCache)
    {
      if !attached || data.None? {
        return;
      }
      var d := data.value;
      var masterMac := Lower(OrEmpty(Or(d.zoneMasterMac, Some(d.deviceId))));
      if masterMac == "" {
        return;
      }
      var members := Filter(d.zoneMembers, HasMac);
      if members == [] && d.deviceId != "" {
        members := [ZoneMember(if d.ipAddress != "" then d.ipAddress else client.ControlIp(), d.deviceId)];
      }
      store.zoneCache := store.zoneCache[masterMac := members];
    }

    /** `_get_zone_members`; it is only read while there is a state. */
    function ZoneMembers(): (r: seq<ZoneMember>)
      reads this, store, client
      requires data.Some?
      ensures LiveMembers(data.value) != [] ==> r == LiveMembers(data.value)
      ensures var key := MasterKey(data.value);
        attached && LiveMembers(data.value) == [] && key != "" && key in store.zoneCache ==>
          r == store.zoneCache[key]
      ensures var key := MasterKey(data.value);
        LiveMembers(data.value) == [] && (!attached || key == "" || key !in store.zoneCache) ==>
          r == (if data.value.deviceId != "" then [SelfEntry(data.value, client.ControlIp())] else [])
    {
      ZoneMembersView(data.value, ZoneCache(), client.ControlIp())
    }

    /** `_map_zone_members_to_entities`: one pass with a `seen` set. */
    method MapZoneMembersToEntities(members: seq<ZoneMember>, lookup: map<string, string>) returns (entities: seq<string>)
      ensures entities == Distinct(LookedUp(members, lookup))
      ensures NoDup(entities)
      ensures forall e :: e in entities <==> e != "" && exists m :: m in members && EntityFor(lookup)(m) == e
    {
      var seen: set<string> := {};
      entities := [];
      var i := 0;
      while i < |members|
        invariant 0 <= i <= |members|
        invariant entities == Distinct(LookedUp(members[..i], lookup))
        invariant forall e :: e in seen <==> e in entities
      {
        var member := members[i];
        assert members[..i + 1] == members[..i] + [member];
        MapSnoc(members[..i], member, EntityFor(lookup));
        FilterSnoc(Map(members[..i], EntityFor(lookup)), EntityFor(lookup)(member), IsEntity);
        var mac := Lower(member.mac);
        var entityId := if mac in lookup then lookup[mac] else "";
        DistinctSnoc(LookedUp(members[..i], lookup), entityId);
        if entityId != "" && entityId !in seen {
          seen := seen + {entityId};
          entities := entities + [entityId];
        }
        i := i + 1;
      }
      assert members[..i] == members;
      EntitiesSpec(members, lookup);
    }

    /** The zone part of `extra_state_attributes`: none without a state;
        otherwise the members read back, the lookup after its defaulting
        write, and the group and zone derived from them. */
    method ExtraStateAttributes() returns (attrs: Option<Attributes>)
      modifies store`macLookup
      ensures data.None? ==> attrs == None
      ensures attached ==> store.macLookup == WithDefault(old(store.macLookup), data, entityId)
      ensures !attached ==> store.macLookup == old(store.macLookup)
      ensures data.Some? ==>
        attrs == Some(AttributesOf(data.value, ZoneMembersView(data.value, old(ZoneCache()), client.ControlIp()),
                                   (if attached then store.macLookup else map[]), entityId))
    {
      if data.None? {
        return None;
      }
      var d := data.value;
      var members := ZoneMembers();
      var lookup := MacEntityLookup();
      var masterMac := Lower(OrEmpty(Or(d.zoneMasterMac, Some(d.deviceId))));
      var masterEntity := if masterMac in lookup then lookup[masterMac] else "";
      var group := MapZoneMembersToEntities(members, lookup);
      if entityId != "" && entityId !in group {
        group := group + [entityId];
      }
      assert group == GroupOf(members, lookup, entityId);
      var zoneMaster: Option<string> := None;
      if masterEntity != "" {
        zoneMaster := Some(masterEntity);
      } else if d.isMaster && entityId != "" {
        zoneMaster := Some(entityId);
      }
      assert zoneMaster == MasterEntity(d, lookup, entityId);
      var slaves := Filter(group, NotMaster(zoneMaster));
      var zone: Option<ZoneAttr> := None;
      if zoneMaster.Some? || slaves != [] {
        zone := Some(ZoneAttr(Or(zoneMaster, d.zoneMasterMac), d.isMaster, slaves));
      }
      var groupAttr: Option<seq<string>> := None;
      if group != [] {
        groupAttr := Some(group);
      }
      attrs := Some(Attributes(d.ipAddress, d.deviceId, d.isMaster, d.zoneMasterMac, members, zone, groupAttr));
    }

    /** `state`. */
    function State(): (r: Option<PlayerState>)
      reads this
      ensures data.None? ==> r.None?
      ensures data.Some? ==> (r.None? <==> OrEmpty(data.value.status) == "")
    {
      if data.Some? then Classify(data.value.status) else None
    }

    /** `async_select_source`: an exact, case-insensitive name match among
        the cached sources is posted directly; otherwise the client's
        matching and fallback decide. The refresh that follows is not
        modelled. */
    method SelectSource(source: string, catalog: Reply<seq<SourceNode>>) returns (item: ContentItem)
      ensures var cs := SourcesOrNil(sources);
        match FirstNamed(cs, source)
        case Some(i) => item == ItemPayload(cs[i])
        case None => item == SelectedItem(source, catalog)
    {
      var cs := SourcesOrNil(sources);
      var first := FirstNamed(cs, source);
      var i := 0;
      while i < |cs|
        invariant 0 <= i <= |cs|
        invariant forall j :: 0 <= j < i ==> !NameMatches(cs[j], source)
      {
        if Lower(cs[i].name) == Lower(source) {
          assert first == Some(i);
          return ItemPayload(cs[i]);
        }
        i := i + 1;
      }
      item := client.SelectSource(source, catalog);
    }

    /** `async_added_to_hass`: fetch the sources (a failure leaves none),
        then register the MAC and cache the zone members. */
    method AddedToHass(catalog: Reply<seq<SourceNode>>)
      modifies this`sources, store`macLookup, store`zoneCache
      ensures sources == (if catalog.Failed? then None else Some(Candidates(catalog)))
      ensures attached ==> store.macLookup == Registered(old(store.macLookup), data, entityId)
      ensures attached && data.Some? ==>
        store.zoneCache == ZoneCacheAfter(old(store.zoneCache), data.value, client.ControlIp())
      ensures !attached || data.None? ==> store.zoneCache == old(store.zoneCache)
      ensures !attached ==> store.macLookup == old(store.macLookup)
    {
      var fetched := client.GetSources(catalog);
      sources := if fetched.Ok? then Some(fetched.value) else None;
      EnsureMacRegistered();
      CacheZoneMembers();
    }

    /** `_handle_coordinator_update` with the coordinator's new state:
        register the MAC and cache the zone members; the members then read
        back are the ones just cached. */
    method CoordinatorUpdate(newData: Option<DeviceState>)
      modifies this`data, store`macLookup, store`zoneCache
      ensures data == newData
      ensures attached ==> store.macLookup == Registered(old(store.macLookup), newData, entityId)
      ensures attached && newData.Some? ==>
        store.zoneCache == ZoneCacheAfter(old(store.zoneCache), newData.value, client.ControlIp())
        && ZoneMembers() == CachedMembers(newData.value, client.ControlIp())
      ensures !attached || newData.None? ==> store.zoneCache == old(store.zoneCache)
      ensures !attached ==> store.macLookup == old(store.macLookup)
    {
      data := newData;
      EnsureMacRegistered();
      CacheZoneMembers();
      if attached && newData.Some? {
        ViewAfterCache(newData.value, old(store.zoneCache), client.ControlIp());
      }
    }
  }
}
