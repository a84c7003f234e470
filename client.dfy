/** The pure parts of the SoundTouch HTTP client: the records it reads and
    writes, how a source name is matched and turned into a `ContentItem`,
    the `setZone` payload, the filters applied to the zone, sources and
    volume replies, and the client's learnt control address.

    Replies of the device are abstract records (what the XML layer would
    have parsed out of the response); `Reply.Failed` stands for every way
    `_request` raises: a transport error, a non-2xx status, unparsable XML
    or an `<errors>` element in the answer. */
module Client {
  import opened Wrappers
  import opened Text
  import opened Seqs

  datatype SoundTouchError = RequestFailed | MissingInfo

  /** What `_request` gives back: a failure, an empty body (`None`) or a parsed body. */
  datatype Reply<+T> = Failed | Empty | Body(body: T)

  datatype ZoneMember = ZoneMember(ip: string, mac: string)

  datatype Source = Source(
    name: string,
    source: string,
    sourceAccount: Option<string>,
    contentType: Option<string>,
    location: Option<string>,
    isPresetable: bool,
    raw: map<string, string>)

  /** Python's `value or None` on an optional string. */
  function NonEmpty(a: Option<string>): Option<string> {
    if a.Some? && a.value != "" then a else None
  }

  // ---------------------------------------------------------------------
  // Source matching and the select payloads

  /** `SoundTouchSource.matches`: the lower-cased value is one of the
      lower-cased account, source id, or (when it has one) name. */
  predicate SourceMatches(s: Source, value: string)
    ensures Lower(value) == Lower(s.source) ==> SourceMatches(s, value)
    ensures s.name == "" ==> (SourceMatches(s, value) <==> Lower(value) == Lower(OrEmpty(s.sourceAccount)) || Lower(value) == Lower(s.source))
  {
    var candidate := Lower(value);
    candidate == Lower(OrEmpty(s.sourceAccount))
    || candidate == Lower(s.source)
    || (s.name != "" && candidate == Lower(s.name))
  }

  /** Matching ignores the case of the probe. */
  lemma SourceMatchesIgnoresCase(s: Source, value: string)
    ensures SourceMatches(s, Upper(value)) == SourceMatches(s, value)
    ensures SourceMatches(s, Lower(value)) == SourceMatches(s, value)
  {
    LowerOfUpper(value);
    assert Lower(Lower(value)) == Lower(value);
  }

  /** An empty probe matches exactly the sources with no account or no id,
      because the empty strings stand among the options. */
  lemma SourceMatchesEmpty(s: Source)
    ensures SourceMatches(s, "") <==> OrEmpty(s.sourceAccount) == "" || s.source == ""
  {
    assert Lower("") == "";
  }

  datatype ContentItem = ContentItem(
    source: Option<string>,
    sourceAccount: Option<string>,
    itemType: Option<string>,
    location: Option<string>,
    isPresetable: Option<string>,
    itemName: Option<string>)

  /** The `ContentItem` that `async_select_source_item` posts for a catalog
      entry: each non-empty field of the entry is copied, the account even
      when empty; `isPresetable` is `true` for a presetable entry and
      otherwise the raw attribute, if the device sent one. */
  function ItemPayload(s: Source): (c: ContentItem)
    ensures c.source.Some? <==> s.source != ""
    ensures c.source.Some? ==> c.source.value == s.source
    ensures c.sourceAccount == s.sourceAccount
    ensures c.itemType == NonEmpty(s.contentType) && c.location == NonEmpty(s.location)
    ensures c.itemName.Some? <==> s.name != ""
    ensures c.itemName.Some? ==> c.itemName.value == s.name
    ensures s.isPresetable ==> c.isPresetable == Some("true")
    ensures !s.isPresetable ==> c.isPresetable == Attr(s.raw, "isPresetable")
  {
    ContentItem(
      if s.source != "" then Some(s.source) else None,
      s.sourceAccount,
      NonEmpty(s.contentType),
      NonEmpty(s.location),
      if s.isPresetable then Some("true")
      else if "isPresetable" in s.raw then Some(s.raw["isPresetable"])
      else None,
      if s.name != "" then Some(s.name) else None)
  }

  /** `raw.split(":", 1)` with both parts stripped, or `(raw, "")` without a colon. */
  function SplitNameAccount(raw: string): (string, string) {
    if ':' in raw then
      var k := IndexOf(raw, ':');
      (Strip(raw[..k]), Strip(raw[k + 1..]))
    else (raw, "")
  }

  /** `_select_source_fallback`: the generic `ContentItem` built from a
      `name[:account]` string. The source is never empty and always
      upper-case; nothing but source and account is set. */
  function FallbackPayload(source: string): (c: ContentItem)
    ensures c.source.Some? && c.source.value != "" && IsUppered(c.source.value)
    ensures var name := SplitNameAccount(Strip(source)).0;
      c.source == Some(if name != "" then Upper(name) else "AUX")
    ensures var account := SplitNameAccount(Strip(source)).1;
      && (account != "" ==> c.sourceAccount == Some(account))
      && (account == "" ==> c.sourceAccount == (if c.source == Some("BLUETOOTH") then Some("") else None))
    ensures c.itemType == None && c.location == None
    ensures c.isPresetable == None && c.itemName == None
  {
    var parts := SplitNameAccount(Strip(source));
    var name, account := parts.0, parts.1;
    var src := if name != "" then Upper(name) else "AUX";
    UpperIsUppered(name);
    ContentItem(
      Some(src),
      if src == "BLUETOOTH" && account == "" then Some("")
      else if account != "" then Some(account)
      else None,
      None, None, None, None)
  }

  lemma {:induction false} IndexOfAfter(a: string, c: char, b: string)
    requires c !in a
    ensures c in a + [c] + b && IndexOf(a + [c] + b, c) == |a|
  {
    assert (a + [c] + b)[|a|] == c;
    if a != [] {
      assert (a + [c] + b)[1..] == a[1..] + [c] + b;
      IndexOfAfter(a[1..], c, b);
    }
  }

  /** `name:account` round trip: a trimmed name without a colon and a
      trimmed account come back as the upper-cased source and the account. */
  lemma FallbackNameAndAccount(name: string, account: string)
    requires name != "" && account != "" && ':' !in name
    requires IsStripped(name) && IsStripped(account)
    ensures FallbackPayload(name + ":" + account)
            == ContentItem(Some(Upper(name)), Some(account), None, None, None, None)
  {
    var raw := name + ":" + account;
    assert raw == name + [':'] + account;
    assert raw[0] == name[0] && raw[|raw| - 1] == account[|account| - 1];
    StrippedIsFixed(raw);
    IndexOfAfter(name, ':', account);
    assert raw[..|name|] == name && raw[|name| + 1..] == account;
    StrippedIsFixed(name);
    StrippedIsFixed(account);
  }

  /** A blank source name selects the auxiliary input with no account. */
  lemma FallbackBlank(source: string)
    requires AllSpace(source)
    ensures FallbackPayload(source) == ContentItem(Some("AUX"), None, None, None, None, None)
  {
    assert source + [] == source;
    StripPadded(source, [], []);
    assert Strip([]) == [];
    assert source + [] + [] == source;
  }

  /** Without a colon the whole trimmed text is the source; only
      `BLUETOOTH` gets an (empty) account. */
  lemma FallbackWithoutColon(source: string)
    requires Strip(source) != "" && ':' !in Strip(source)
    ensures FallbackPayload(source)
            == ContentItem(Some(Upper(Strip(source))),
                           if Upper(Strip(source)) == "BLUETOOTH" then Some("") else None,
                           None, None, None, None)
  {
  }

  // ---------------------------------------------------------------------
  // Device replies

  datatype InfoNode = InfoNode(
    deviceId: Option<string>,
    name: Option<string>,
    deviceType: Option<string>,
    networkIp: Option<string>,
    ipAddress: Option<string>)

  datatype Info = Info(deviceId: string, name: string, deviceType: string)

  /** The fields `_async_get_info` returns: a missing `name` element reads as `SoundTouch`. */
  function InfoOf(n: InfoNode): Info {
    Info(OrEmpty(n.deviceId), if n.name.Some? then n.name.value else "SoundTouch", OrEmpty(n.deviceType))
  }

  /** `networkInfo/ipAddress`, else `ipAddress`, as text. */
  function InfoAddress(n: InfoNode): string {
    OrEmpty(Or(n.networkIp, n.ipAddress))
  }

  /** The control address once `_async_get_info` has read `reply`: the
      reported address, stripped, when there is one, else `before`. */
  function LearntAddress(reply: Reply<InfoNode>, before: string): string {
    if reply.Body? && InfoAddress(reply.body) != "" then Strip(InfoAddress(reply.body)) else before
  }

  datatype VolumeNode = VolumeNode(actualVolume: Option<int>, targetVolume: Option<int>, mute: Option<string>)

  datatype Volume = Volume(actual: int, target: Option<int>, mute: bool)

  /** `_async_get_volume`: an empty reply is volume 0, not muted, no target;
      mute holds only for the text `true` in any case; a target is present
      exactly when its element is. */
  function GetVolume(reply: Reply<VolumeNode>): (r: Result<Volume, SoundTouchError>)
    ensures reply.Failed? <==> r.Err?
    ensures reply.Empty? ==> r == Ok(Volume(0, None, false))
    ensures reply.Body? ==> (
              && r.Ok?
              && r.value.actual == (if reply.body.actualVolume.Some? then reply.body.actualVolume.value else 0)
              && (r.value.mute <==> reply.body.mute.Some? && Lower(reply.body.mute.value) == "true")
              && r.value.target == reply.body.targetVolume)
  {
    match reply
    case Failed => Err(RequestFailed)
    case Empty => Ok(Volume(0, None, false))
    case Body(v) =>
      Ok(Volume(
        if v.actualVolume.Some? then v.actualVolume.value else 0,
        v.targetVolume,
        v.mute.Some? && v.mute.value != "" && Lower(v.mute.value) == "true"))
  }

  datatype ContentItemNode = ContentItemNode(
    sourceAttr: Option<string>,
    sourceText: Option<string>,
    itemName: Option<string>,
    accountAttr: Option<string>,
    accountText: Option<string>)

  datatype NowPlayingNode = NowPlayingNode(
    contentItem: Option<ContentItemNode>,
    playStatus: Option<string>,
    status: Option<string>)

  datatype NowPlaying = NowPlaying(source: Option<string>, sourceAccount: Option<string>, status: Option<string>)

  /** `_async_get_now_playing` as `async_get_state` reads it: an empty reply
      leaves source, account and status unset. */
  function GetNowPlaying(reply: Reply<NowPlayingNode>): (r: Result<NowPlaying, SoundTouchError>)
    ensures reply.Failed? <==> r.Err?
    ensures reply.Empty? ==> r == Ok(NowPlaying(None, None, None))
    ensures reply.Body? && reply.body.contentItem.None? ==> r.Ok? && r.value.source == None && r.value.sourceAccount == None
    ensures reply.Body? && reply.body.contentItem.Some? ==>
              var ci := reply.body.contentItem.value;
              && r.Ok?
              && r.value.source == Or(Or(ci.sourceAttr, ci.sourceText), ci.itemName)
              && r.value.sourceAccount == Or(ci.accountAttr, ci.accountText)
    ensures reply.Body? ==> r.Ok? && r.value.status == Or(reply.body.playStatus, reply.body.status)
  {
    match reply
    case Failed => Err(RequestFailed)
    case Empty => Ok(NowPlaying(None, None, None))
    case Body(n) =>
      var source := if n.contentItem.Some? then Or(Or(n.contentItem.value.sourceAttr, n.contentItem.value.sourceText), n.contentItem.value.itemName) else None;
      var account := if n.contentItem.Some? then Or(n.contentItem.value.accountAttr, n.contentItem.value.accountText) else None;
      Ok(NowPlaying(source, account, Or(n.playStatus, n.status)))
  }

  // ---------------------------------------------------------------------
  // The sources reply

  datatype SourceNode = SourceNode(text: Option<string>, attrs: map<string, string>)

  function Attr(attrs: map<string, string>, key: string): Option<string> {
    if key in attrs then Some(attrs[key]) else None
  }

  /** The status filter of `async_get_sources`: no status, `READY` or `PLAYING`, in any case. */
  predicate StatusAccepted(attrs: map<string, string>) {
    var status := Upper(OrEmpty(Attr(attrs, "status")));
    status == "" || status == "READY" || status == "PLAYING"
  }

  predicate SourceKept(n: SourceNode) {
    StatusAccepted(n.attrs)
  }

  /** One catalog entry: the source id upper-cased, `is_presetable` iff the
      attribute reads `true` in any case, the raw attributes kept. */
  function SourceOf(n: SourceNode): (s: Source)
    ensures s.source == Upper(OrEmpty(Or(Attr(n.attrs, "source"), Attr(n.attrs, "sourceID")))) && IsUppered(s.source)
    ensures var named := Strip(OrEmpty(Or(Or(Or(n.text, Attr(n.attrs, "itemName")), Attr(n.attrs, "sourceAccount")), Attr(n.attrs, "source"))));
      && (named != "" ==> s.name == named)
      && (named == "" && OrEmpty(s.sourceAccount) != "" ==> s.name == s.sourceAccount.value)
      && (named == "" && OrEmpty(s.sourceAccount) == "" ==> s.name == s.source)
    ensures s.contentType == NonEmpty(Attr(n.attrs, "type")) && s.location == NonEmpty(Attr(n.attrs, "location"))
    ensures s.isPresetable <==> Lower(OrEmpty(Or(Attr(n.attrs, "isPresetable"), Some("false")))) == "true"
    ensures s.raw == n.attrs && s.sourceAccount == Attr(n.attrs, "sourceAccount")
  {
    var a := n.attrs;
    var name := Strip(OrEmpty(Or(Or(Or(n.text, Attr(a, "itemName")), Attr(a, "sourceAccount")), Attr(a, "source"))));
    var source := Upper(OrEmpty(Or(Attr(a, "source"), Attr(a, "sourceID"))));
    var account := Attr(a, "sourceAccount");
    Source(
      if name != "" then name else if account.Some? && account.value != "" then account.value else source,
      source,
      account,
      NonEmpty(Attr(a, "type")),
      NonEmpty(Attr(a, "location")),
      Lower(OrEmpty(Or(Attr(a, "isPresetable"), Some("false")))) == "true",
      a)
  }

  function SourcesOf(nodes: seq<SourceNode>): seq<Source> {
    Map(Filter(nodes, SourceKept), SourceOf)
  }

  /** What the sources reply yields: at most one entry per node, only nodes
      whose status is accepted, and every accepted node. */
  lemma SourcesOfSpec(nodes: seq<SourceNode>)
    ensures |SourcesOf(nodes)| <= |nodes|
    ensures forall s :: s in SourcesOf(nodes) ==> IsUppered(s.source) && StatusAccepted(s.raw)
    ensures forall n :: n in nodes && SourceKept(n) ==> SourceOf(n) in SourcesOf(nodes)
  {
    var kept := Filter(nodes, SourceKept);
    forall s | s in SourcesOf(nodes) ensures IsUppered(s.source) && StatusAccepted(s.raw) {
      var i :| 0 <= i < |kept| && s == SourceOf(kept[i]);
      assert kept[i] in kept;
      assert SourceKept(kept[i]);
      assert StatusAccepted(kept[i].attrs);
      assert IsUppered(SourceOf(kept[i]).source);
    }
    forall n | n in nodes && SourceKept(n) ensures SourceOf(n) in SourcesOf(nodes) {
      var i :| 0 <= i < |kept| && kept[i] == n;
      assert SourcesOf(nodes)[i] == SourceOf(n);
    }
  }

  // ---------------------------------------------------------------------
  // The zone reply

  datatype ZoneChild = ZoneChild(ipAddress: Option<string>, text: Option<string>)

  datatype ZoneNode = ZoneNode(master: Option<string>, children: seq<ZoneChild>)

  datatype Zone = Zone(members: seq<ZoneMember>, master: string)

  /** A child with both an address and a (stripped) MAC. */
  predicate ChildKept(c: ZoneChild) {
    OrEmpty(c.ipAddress) != "" && Strip(OrEmpty(c.text)) != ""
  }

  function ChildMember(c: ZoneChild): ZoneMember {
    ZoneMember(OrEmpty(c.ipAddress), Strip(OrEmpty(c.text)))
  }

  function ZoneMembersOf(children: seq<ZoneChild>): seq<ZoneMember> {
    Map(Filter(children, ChildKept), ChildMember)
  }

  lemma ChildMemberWellFormed(c: ZoneChild)
    requires ChildKept(c)
    ensures ChildMember(c).ip != "" && ChildMember(c).mac != "" && IsStripped(ChildMember(c).mac)
  {
    StripIsStripped(OrEmpty(c.text));
  }

  /** Every member read from the zone reply has an address and a non-empty,
      stripped MAC. */
  lemma ZoneMembersWellFormed(children: seq<ZoneChild>)
    ensures forall m :: m in ZoneMembersOf(children) ==> m.ip != "" && m.mac != "" && IsStripped(m.mac)
  {
    var kept := Filter(children, ChildKept);
    var ms := ZoneMembersOf(children);
    forall k | 0 <= k < |ms| ensures ms[k].ip != "" && ms[k].mac != "" && IsStripped(ms[k].mac) {
      assert ms[k] == ChildMember(kept[k]);
      assert kept[k] in kept;
      ChildMemberWellFormed(kept[k]);
    }
  }

  /** The child that names the device itself, compared case-insensitively. */
  predicate IsSelf(c: ZoneChild, deviceId: Option<string>) {
    ChildKept(c) && deviceId.Some? && deviceId.value != ""
    && Lower(ChildMember(c).mac) == Lower(deviceId.value)
  }

  /** The position of the last child that names the device itself, if any. */
  function LastSelf(children: seq<ZoneChild>, deviceId: Option<string>): (r: Option<nat>)
    ensures r.Some? ==> r.value < |children| && IsSelf(children[r.value], deviceId)
                        && forall j :: r.value < j < |children| ==> !IsSelf(children[j], deviceId)
    ensures r.None? ==> forall i :: 0 <= i < |children| ==> !IsSelf(children[i], deviceId)
    decreases |children|
  {
    if |children| == 0 then None
    else if IsSelf(children[|children| - 1], deviceId) then Some(|children| - 1)
    else
      var init := children[..|children| - 1];
      assert forall i :: 0 <= i < |init| ==> init[i] == children[i];
      LastSelf(init, deviceId)
  }

  /** The control address after reading the zone: the address of the last
      self entry, else what it was before. */
  function SelfAddress(children: seq<ZoneChild>, deviceId: Option<string>, before: string): string {
    match LastSelf(children, deviceId)
    case Some(i) => OrEmpty(children[i].ipAddress)
    case None => before
  }

  /** A self child always sets the control address, and the last one wins;
      without one the address stays as it was. */
  lemma SelfAddressSpec(children: seq<ZoneChild>, deviceId: Option<string>, before: string)
    ensures var r := SelfAddress(children, deviceId, before);
      && ((forall i :: 0 <= i < |children| ==> !IsSelf(children[i], deviceId)) ==> r == before)
      && ((exists i :: 0 <= i < |children| && IsSelf(children[i], deviceId)) ==>
            exists i :: 0 <= i < |children| && IsSelf(children[i], deviceId) && r == OrEmpty(children[i].ipAddress)
                        && forall j :: i < j < |children| ==> !IsSelf(children[j], deviceId))
  {
    var last := LastSelf(children, deviceId);
    if last.Some? {
      assert IsSelf(children[last.value], deviceId);
    }
  }

  /** Reading one more child. */
  lemma SelfAddressSnoc(children: seq<ZoneChild>, child: ZoneChild, deviceId: Option<string>, before: string)
    ensures SelfAddress(children + [child], deviceId, before)
            == if IsSelf(child, deviceId) then OrEmpty(child.ipAddress) else SelfAddress(children, deviceId, before)
  {
    assert (children + [child])[..|children|] == children;
  }

  function ZoneOf(reply: Reply<ZoneNode>): Zone
    requires !reply.Failed?
  {
    if reply.Empty? then Zone([], "")
    else Zone(ZoneMembersOf(reply.body.children), OrEmpty(reply.body.master))
  }

  // ---------------------------------------------------------------------
  // The combined device state

  datatype DeviceState = DeviceState(
    deviceId: string,
    name: string,
    deviceType: string,
    volume: int,
    targetVolume: Option<int>,
    isMuted: bool,
    source: Option<string>,
    sourceAccount: Option<string>,
    status: Option<string>,
    zoneMembers: seq<ZoneMember>,
    isMaster: bool,
    zoneMasterMac: Option<string>,
    ipAddress: string)

  /** How `async_get_state` combines the four replies: the zone master is
      `None` when the reply names none, and the device leads a zone iff a
      master is named and it is the device, ignoring case. */
  function CombineState(info: Info, volume: Volume, nowPlaying: NowPlaying, zone: Zone, address: string): (s: DeviceState)
    ensures s.isMaster <==> zone.master != "" && Lower(zone.master) == Lower(info.deviceId)
    ensures s.zoneMasterMac == None <==> zone.master == ""
    ensures s.zoneMasterMac.Some? ==> s.zoneMasterMac.value == zone.master
    ensures s.deviceId == info.deviceId && s.zoneMembers == zone.members && s.ipAddress == address
  {
    var masterMac := if zone.master != "" then Some(zone.master) else None;
    DeviceState(
      info.deviceId, info.name, info.deviceType,
      volume.actual, volume.target, volume.mute,
      nowPlaying.source, nowPlaying.sourceAccount, nowPlaying.status,
      zone.members,
      masterMac.Some? && Lower(masterMac.value) == Lower(info.deviceId),
      masterMac,
      address)
  }

  /** The catalog `async_select_source` searches: a failed fetch counts as empty. */
  function Candidates(catalog: Reply<seq<SourceNode>>): seq<Source> {
    if catalog.Body? then SourcesOf(catalog.body) else []
  }

  /** The position of the first source matching `v`, if any. */
  function FirstMatch(cs: seq<Source>, v: string): (r: Option<nat>)
    ensures r.Some? ==> r.value < |cs| && SourceMatches(cs[r.value], v)
                        && forall j :: 0 <= j < r.value ==> !SourceMatches(cs[j], v)
    ensures r.None? ==> forall i :: 0 <= i < |cs| ==> !SourceMatches(cs[i], v)
  {
    if |cs| == 0 then None
    else if SourceMatches(cs[0], v) then Some(0)
    else
      match FirstMatch(cs[1..], v)
      case None => None
      case Some(i) => Some(i + 1)
  }

  /** What `async_select_source` posts for `source`: the payload of the
      first catalog entry matching the trimmed, lower-cased name, or the
      fallback item when none matches. */
  function SelectedItem(source: string, catalog: Reply<seq<SourceNode>>): (r: ContentItem)
    ensures Candidates(catalog) == [] ==> r == FallbackPayload(source)
    ensures r == FallbackPayload(source)
            || exists i :: 0 <= i < |Candidates(catalog)| && SourceMatches(Candidates(catalog)[i], Lower(Strip(source)))
                           && r == ItemPayload(Candidates(catalog)[i])
  {
    var cs := Candidates(catalog);
    match FirstMatch(cs, Lower(Strip(source)))
    case Some(i) => ItemPayload(cs[i])
    case None => FallbackPayload(source)
  }

  /** The selection rule read back: the first matching catalog entry wins,
      later ones are never looked at, and without a match (or without a
      catalog) the fallback item is posted. */
  lemma SelectedItemSpec(source: string, catalog: Reply<seq<SourceNode>>, i: nat)
    ensures var cs, v := Candidates(catalog), Lower(Strip(source));
      && (i < |cs| && SourceMatches(cs[i], v) && (forall j :: 0 <= j < i ==> !SourceMatches(cs[j], v))
          ==> SelectedItem(source, catalog) == ItemPayload(cs[i]))
      && ((forall k :: 0 <= k < |cs| ==> !SourceMatches(cs[k], v)) ==> SelectedItem(source, catalog) == FallbackPayload(source))
    ensures catalog.Failed? ==> SelectedItem(source, catalog) == FallbackPayload(source)
  {
    var cs, v := Candidates(catalog), Lower(Strip(source));
    var first := FirstMatch(cs, v);
    if first.Some? {
      assert SourceMatches(cs[first.value], v);
    }
  }

  // ---------------------------------------------------------------------
  // The client object

  class SoundTouchClient {
    const host: string
    var deviceId: Option<string>
    var name: Option<string>
    var deviceType: Option<string>
    var controlIp: string

    constructor (host: string)
      ensures this.host == host && controlIp == host
      ensures deviceId == None && name == None && deviceType == None
    {
      this.host := host;
      deviceId, name, deviceType := None, None, None;
      controlIp := host;
    }

    /** `control_ip`: the address learnt from the device, else the configured host. */
    function ControlIp(): (r: string)
      reads this
      ensures r == controlIp || r == host
      ensures controlIp != "" ==> r == controlIp
      ensures host != "" ==> r != ""
    {
      if controlIp != "" then controlIp else host
    }

    /** `_async_get_info`: records identity, name and type, and takes the
        reported address (stripped) as the control address when there is one. */
    method GetInfo(reply: Reply<InfoNode>) returns (r: Result<Info, SoundTouchError>)
      modifies this
      ensures reply.Failed? ==> r == Err(RequestFailed)
      ensures reply.Empty? ==> r == Err(MissingInfo)
      ensures !reply.Body? ==> unchanged(this)
      ensures reply.Body? ==> (
                && r == Ok(InfoOf(reply.body))
                && deviceId == Some(r.value.deviceId) && name == Some(r.value.name)
                && deviceType == Some(r.value.deviceType)
                && controlIp == LearntAddress(reply, old(controlIp)))
    {
      match reply
      case Failed => return Err(RequestFailed);
      case Empty => return Err(MissingInfo);
      case Body(n) =>
        var info := InfoOf(n);
        var address := InfoAddress(n);
        if address != "" {
          controlIp := Strip(address);
        }
        deviceId, name, deviceType := Some(info.deviceId), Some(info.name), Some(info.deviceType);
        return Ok(info);
    }

    /** `_async_get_zone`: keeps the children with an address and a MAC, in
        order, and learns the control address from the self entry. */
    method GetZone(reply: Reply<ZoneNode>) returns (r: Result<Zone, SoundTouchError>)
      modifies this`controlIp
      ensures reply.Failed? ==> r == Err(RequestFailed) && controlIp == old(controlIp)
      ensures reply.Empty? ==> r == Ok(Zone([], "")) && controlIp == old(controlIp)
      ensures reply.Body? ==> (
                && r == Ok(ZoneOf(reply))
                && controlIp == SelfAddress(reply.body.children, deviceId, old(controlIp)))
    {
      if reply.Failed? {
        return Err(RequestFailed);
      }
      if reply.Empty? {
        return Ok(Zone([], ""));
      }
      var children := reply.body.children;
      var members: seq<ZoneMember> := [];
      var i := 0;
      while i < |children|
        invariant 0 <= i <= |children|
        invariant members == ZoneMembersOf(children[..i])
        invariant controlIp == SelfAddress(children[..i], deviceId, old(controlIp))
      {
        var child := children[i];
        var ip := OrEmpty(child.ipAddress);
        var mac := Strip(OrEmpty(child.text));
        assert children[..i + 1] == children[..i] + [child];
        SelfAddressSnoc(children[..i], child, deviceId, old(controlIp));
        if ip != "" && mac != "" {
          if deviceId.Some? && deviceId.value != "" && Lower(mac) == Lower(deviceId.value) {
            controlIp := ip;
          }
          MapSnoc(Filter(children[..i], ChildKept), child, ChildMember);
          members := members + [ZoneMember(ip, mac)];
        }
        i := i + 1;
      }
      assert children[..i] == children;
      return Ok(Zone(members, OrEmpty(reply.body.master)));
    }

    /** `async_get_state`, with the four queries taken one after the other
        (info, volume, now playing, zone). Any failed query fails the
        whole state; the control address is read after all four. */
    method GetState(info: Reply<InfoNode>, volume: Reply<VolumeNode>, nowPlaying: Reply<NowPlayingNode>, zone: Reply<ZoneNode>)
      returns (r: Result<DeviceState, SoundTouchError>)
      modifies this
      ensures r.Ok? <==> info.Body? && !volume.Failed? && !nowPlaying.Failed? && !zone.Failed?
      ensures r.Ok? ==> r.value == CombineState(InfoOf(info.body), GetVolume(volume).value, GetNowPlaying(nowPlaying).value, ZoneOf(zone), ControlIp())
      ensures info.Body? ==> deviceId == Some(InfoOf(info.body).deviceId) && name == Some(InfoOf(info.body).name)
                             && deviceType == Some(InfoOf(info.body).deviceType)
      ensures !info.Body? ==> deviceId == old(deviceId) && name == old(name) && deviceType == old(deviceType)
      ensures var learnt := LearntAddress(info, old(controlIp));
        controlIp == (if zone.Body? then SelfAddress(zone.body.children, deviceId, learnt) else learnt)
    {
      var i := GetInfo(info);
      var v := GetVolume(volume);
      var n := GetNowPlaying(nowPlaying);
      var z := GetZone(zone);
      if i.Err? {
        return Err(i.error);
      }
      if v.Err? || n.Err? || z.Err? {
        return Err(RequestFailed);
      }
      return Ok(CombineState(i.value, v.value, n.value, z.value, ControlIp()));
    }

    /** `async_set_zone`: identifies the device first if needed, then builds
        the absolute payload: `master` is the device id, the first entry is
        the device itself at its control address, then each given member
        in order. */
    method SetZone(members: seq<ZoneMember>, info: Reply<InfoNode>) returns (r: Result<ZonePayload, SoundTouchError>)
      modifies this
      ensures old(deviceId).Some? ==> unchanged(this)
      ensures old(deviceId).None? && info.Body? ==>
                && deviceId == Some(InfoOf(info.body).deviceId) && name == Some(InfoOf(info.body).name)
                && deviceType == Some(InfoOf(info.body).deviceType)
                && controlIp == LearntAddress(info, old(controlIp))
      ensures old(deviceId).None? && !info.Body? ==> unchanged(this)
      ensures r.Ok? <==> old(deviceId).Some? || info.Body?
      ensures r.Ok? ==> (
                && r.value.master == OrEmpty(deviceId)
                && |r.value.members| == |members| + 1
                && r.value.members[0] == ZoneMember(ControlIp(), OrEmpty(deviceId))
                && r.value.members[1..] == members)
    {
      if deviceId.None? {
        var identified := GetInfo(info);
        if identified.Err? {
          return Err(identified.error);
        }
      }
      var self := ZoneMember(ControlIp(), OrEmpty(deviceId));
      return Ok(ZonePayload(OrEmpty(deviceId), [self] + members));
    }

    /** `async_get_sources`: the accepted catalog entries in reply order. */
    method GetSources(reply: Reply<seq<SourceNode>>) returns (r: Result<seq<Source>, SoundTouchError>)
      ensures reply.Failed? <==> r.Err?
      ensures r.Ok? ==> r.value == Candidates(reply)
    {
      if reply.Failed? {
        return Err(RequestFailed);
      }
      if reply.Empty? {
        return Ok([]);
      }
      var nodes := reply.body;
      var sources: seq<Source> := [];
      var i := 0;
      while i < |nodes|
        invariant 0 <= i <= |nodes|
        invariant sources == SourcesOf(nodes[..i])
      {
        var node := nodes[i];
        assert nodes[..i + 1] == nodes[..i] + [node];
        assert nodes[..i + 1][..i] == nodes[..i];
        var status := Upper(OrEmpty(Attr(node.attrs, "status")));
        if !(status != "" && status != "READY" && status != "PLAYING") {
          MapSnoc(Filter(nodes[..i], SourceKept), node, SourceOf);
          sources := sources + [SourceOf(node)];
        }
        i := i + 1;
      }
      assert nodes[..i] == nodes;
      return Ok(sources);
    }

    /** `async_select_source`: the first catalog entry that matches the
        trimmed, lower-cased name is posted as it is; with no match the
        generic fallback item is posted. */
    method SelectSource(source: string, catalog: Reply<seq<SourceNode>>) returns (item: ContentItem)
      ensures item == SelectedItem(source, catalog)
    {
      var normalized := Lower(Strip(source));
      var fetched := GetSources(catalog);
      var candidates := if fetched.Ok? then fetched.value else [];
      assert candidates == Candidates(catalog);
      var i := 0;
      while i < |candidates|
        invariant 0 <= i <= |candidates|
        invariant forall j :: 0 <= j < i ==> !SourceMatches(candidates[j], normalized)
      {
        if SourceMatches(candidates[i], normalized) {
          SelectedItemSpec(source, catalog, i);
          return ItemPayload(candidates[i]);
        }
        i := i + 1;
      }
      SelectedItemSpec(source, catalog, 0);
      return FallbackPayload(source);
    }
  }

  datatype ZonePayload = ZonePayload(master: string, members: seq<ZoneMember>)
}
