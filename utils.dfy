/** MAC-address helpers shared by the zone services: normalisation, the
    membership test and the comparison of two member lists as MAC sets. */
module Utils {
  import opened Wrappers
  import opened Text
  import opened Seqs
  import opened Client

  /** `_normalize_mac`: `None` becomes empty, then strip and lower-case. */
  function NormalizeMac(mac: Option<string>): (r: string)
    ensures mac.None? ==> r == ""
    ensures |r| == |Strip(OrEmpty(mac))|
  {
    Lower(Strip(OrEmpty(mac)))
  }

  /** A normalised MAC has no upper-case letter and no surrounding
      whitespace, and is never longer than its input; `None` gives "". */
  lemma NormalizeMacShape(mac: Option<string>)
    ensures var r := NormalizeMac(mac);
      IsLowered(r) && IsStripped(r) && |r| <= |OrEmpty(mac)| && (mac.None? ==> r == "")
  {
    var s := OrEmpty(mac);
    StripIsStripped(s);
    StripLower(Strip(s));
    StrippedIsFixed(Strip(s));
    StripIsStripped(Lower(Strip(s)));
  }

  /** Normalising ignores the case of the letters. */
  lemma NormalizeMacIgnoresCase(mac: string)
    ensures NormalizeMac(Some(Upper(mac))) == NormalizeMac(Some(mac))
    ensures NormalizeMac(Some(Lower(mac))) == NormalizeMac(Some(mac))
  {
    StripUpper(mac);
    LowerOfUpper(Strip(mac));
    StripLower(mac);
    assert Lower(Lower(Strip(mac))) == Lower(Strip(mac));
  }

  /** Normalising ignores surrounding whitespace. */
  lemma NormalizeMacIgnoresPadding(left: string, mac: string, right: string)
    requires AllSpace(left) && AllSpace(right)
    ensures NormalizeMac(Some(left + mac + right)) == NormalizeMac(Some(mac))
  {
    StripPadded(left, mac, right);
  }

  /** A normalised MAC normalises to itself. */
  lemma NormalizeMacIdempotent(mac: Option<string>)
    ensures NormalizeMac(Some(NormalizeMac(mac))) == NormalizeMac(mac)
  {
    var n := NormalizeMac(mac);
    NormalizeMacShape(mac);
    assert IsLowered(n);
    assert Lower(n) == n;
    StrippedIsFixed(n);
  }

  /** The normalised MAC depends on the lower-cased text only. */
  lemma NormalizeMacOfLower(a: string, b: string)
    requires Lower(a) == Lower(b)
    ensures NormalizeMac(Some(a)) == NormalizeMac(Some(b))
  {
    StripLower(a);
    StripLower(b);
  }

  /** The three shapes `speaker_in_zone` accepts as a member. */
  datatype MemberRef =
    | MemberObject(member: ZoneMember)
    | MemberDict(entries: map<string, string>)
    | MemberText(text: string)

  /** The MAC read from a member: its field, the dict's `"mac"` key, or the string itself. */
  function CandidateMac(m: MemberRef): (r: Option<string>)
    ensures m.MemberObject? ==> r == Some(m.member.mac)
    ensures m.MemberDict? ==> (r.Some? <==> "mac" in m.entries)
    ensures m.MemberText? ==> r == Some(m.text)
  {
    match m
    case MemberObject(z) => Some(z.mac)
    case MemberDict(d) => if "mac" in d then Some(d["mac"]) else None
    case MemberText(t) => Some(t)
  }

  /** The membership `speaker_in_zone` decides: a non-empty normalised probe
      equals the normalised MAC of some member. */
  predicate InZone(members: Option<seq<MemberRef>>, mac: Option<string>) {
    NormalizeMac(mac) != "" && members.Some?
    && exists i :: 0 <= i < |members.value| && NormalizeMac(CandidateMac(members.value[i])) == NormalizeMac(mac)
  }

  /** `speaker_in_zone`: scans the members and stops at the first match. */
  method SpeakerInZone(members: Option<seq<MemberRef>>, mac: Option<string>) returns (r: bool)
    ensures r <==> InZone(members, mac)
    ensures NormalizeMac(mac) == "" ==> !r
    ensures members.None? ==> !r
  {
    var normalized := NormalizeMac(mac);
    if normalized == "" || members.None? {
      return false;
    }
    var ms := members.value;
    var i := 0;
    while i < |ms|
      invariant 0 <= i <= |ms|
      invariant forall j :: 0 <= j < i ==> NormalizeMac(CandidateMac(ms[j])) != normalized
    {
      var candidate := NormalizeMac(CandidateMac(ms[i]));
      if candidate == normalized {
        return true;
      }
      i := i + 1;
    }
    return false;
  }

  /** Membership ignores the case of the probe. */
  lemma InZoneIgnoresCase(members: Option<seq<MemberRef>>, mac: string)
    ensures InZone(members, Some(Upper(mac))) == InZone(members, Some(mac))
  {
    NormalizeMacIgnoresCase(mac);
  }

  /** Membership ignores whitespace around the probe. */
  lemma InZoneIgnoresPadding(members: Option<seq<MemberRef>>, left: string, mac: string, right: string)
    requires AllSpace(left) && AllSpace(right)
    ensures InZone(members, Some(left + mac + right)) == InZone(members, Some(mac))
  {
    NormalizeMacIgnoresPadding(left, mac, right);
  }

  function AsRef(m: ZoneMember): MemberRef {
    MemberObject(m)
  }

  /** A list of member objects as `speaker_in_zone` receives it. */
  function Objects(ms: seq<ZoneMember>): (r: seq<MemberRef>)
    ensures |r| == |ms| && forall i :: 0 <= i < |ms| ==> r[i] == MemberObject(ms[i])
  {
    Map(ms, AsRef)
  }

  /** `speaker_in_zone(members, mac)` on a list of member objects. */
  predicate MacIn(ms: seq<ZoneMember>, mac: string) {
    InZone(Some(Objects(ms)), Some(mac))
  }

  /** On member objects, membership reads as: some member's MAC normalises
      to the same non-empty string as the probe. */
  lemma MacInSpec(ms: seq<ZoneMember>, mac: string)
    ensures MacIn(ms, mac) <==> NormalizeMac(Some(mac)) != ""
                                && exists m :: m in ms && NormalizeMac(Some(m.mac)) == NormalizeMac(Some(mac))
  {
    var os := Objects(ms);
    if MacIn(ms, mac) {
      var i :| 0 <= i < |os| && NormalizeMac(CandidateMac(os[i])) == NormalizeMac(Some(mac));
      assert ms[i] in ms;
    }
    if NormalizeMac(Some(mac)) != "" && exists m :: m in ms && NormalizeMac(Some(m.mac)) == NormalizeMac(Some(mac)) {
      var m :| m in ms && NormalizeMac(Some(m.mac)) == NormalizeMac(Some(mac));
      var i :| 0 <= i < |ms| && ms[i] == m;
      assert CandidateMac(os[i]) == Some(m.mac);
    }
  }

  // ---------------------------------------------------------------------
  // Comparing member lists

  /** Python's `items or []`. */
  function OrNil(items: Option<seq<ZoneMember>>): seq<ZoneMember> {
    if items.Some? then items.value else []
  }

  /** What `build_set` collects: the normalised MAC of every member whose
      MAC is non-empty. */
  function MacSet(items: Option<seq<ZoneMember>>): set<string> {
    set m | m in OrNil(items) && m.mac != "" :: NormalizeMac(Some(m.mac))
  }

  /** `same_zone_members`: the two lists name the same MAC set. */
  predicate SameZone(first: Option<seq<ZoneMember>>, second: Option<seq<ZoneMember>>) {
    MacSet(first) == MacSet(second)
  }

  lemma MacSetSnoc(xs: seq<ZoneMember>, x: ZoneMember)
    ensures MacSet(Some(xs + [x])) == MacSet(Some(xs)) + (if x.mac != "" then {NormalizeMac(Some(x.mac))} else {})
  {
    var l, r := MacSet(Some(xs + [x])), MacSet(Some(xs)) + (if x.mac != "" then {NormalizeMac(Some(x.mac))} else {});
    forall k | k in l ensures k in r {
      var m :| m in xs + [x] && m.mac != "" && k == NormalizeMac(Some(m.mac));
      if m != x {
        assert m in xs;
      }
    }
    forall k | k in r ensures k in l {
      if k in MacSet(Some(xs)) {
        var m :| m in xs && m.mac != "" && k == NormalizeMac(Some(m.mac));
        assert m in xs + [x];
      } else {
        assert x in xs + [x];
      }
    }
  }

  /** `build_set`. */
  method BuildSet(items: Option<seq<ZoneMember>>) returns (normalized: set<string>)
    ensures normalized == MacSet(items)
  {
    var xs := OrNil(items);
    normalized := {};
    var i := 0;
    while i < |xs|
      invariant 0 <= i <= |xs|
      invariant normalized == MacSet(Some(xs[..i]))
    {
      var member := xs[i];
      assert xs[..i + 1] == xs[..i] + [member];
      MacSetSnoc(xs[..i], member);
      if member.mac != "" {
        normalized := normalized + {NormalizeMac(Some(member.mac))};
      }
      i := i + 1;
    }
    assert xs[..i] == xs;
  }

  /** `same_zone_members`. */
  method SameZoneMembers(first: Option<seq<ZoneMember>>, second: Option<seq<ZoneMember>>) returns (r: bool)
    ensures r <==> SameZone(first, second)
  {
    var a := BuildSet(first);
    var b := BuildSet(second);
    return a == b;
  }

  lemma MacSetCovered(a: seq<ZoneMember>, b: seq<ZoneMember>)
    requires forall x :: x in a && x.mac != "" ==> exists y :: y in b && Lower(y.mac) == Lower(x.mac)
    ensures MacSet(Some(a)) <= MacSet(Some(b))
  {
    forall k | k in MacSet(Some(a)) ensures k in MacSet(Some(b)) {
      var x :| x in a && x.mac != "" && k == NormalizeMac(Some(x.mac));
      var y :| y in b && Lower(y.mac) == Lower(x.mac);
      NormalizeMacOfLower(x.mac, y.mac);
      assert |Lower(y.mac)| == |y.mac|;
      assert y.mac != "";
    }
  }

  /** The MAC set depends only on which non-empty MACs occur, up to case:
      order, repetitions and addresses do not matter. */
  lemma MacSetByMacs(a: seq<ZoneMember>, b: seq<ZoneMember>)
    requires forall x :: x in a && x.mac != "" ==> exists y :: y in b && Lower(y.mac) == Lower(x.mac)
    requires forall y :: y in b && y.mac != "" ==> exists x :: x in a && Lower(x.mac) == Lower(y.mac)
    ensures SameZone(Some(a), Some(b))
  {
    MacSetCovered(a, b);
    MacSetCovered(b, a);
  }

  /** A list compared with `None` is the same zone iff it names no non-empty MAC. */
  lemma SameZoneAsNone(a: seq<ZoneMember>)
    ensures SameZone(Some(a), None) <==> forall m :: m in a ==> m.mac == ""
  {
    if exists m :: m in a && m.mac != "" {
      var m :| m in a && m.mac != "";
      assert NormalizeMac(Some(m.mac)) in MacSet(Some(a));
    }
  }

  /** The membership test on member objects agrees with the MAC set, for any
      probe that does not normalise to empty. */
  lemma MacInIffInMacSet(ms: seq<ZoneMember>, mac: string)
    requires NormalizeMac(Some(mac)) != ""
    ensures MacIn(ms, mac) <==> NormalizeMac(Some(mac)) in MacSet(Some(ms))
  {
    MacInSpec(ms, mac);
    var n := NormalizeMac(Some(mac));
    if MacIn(ms, mac) {
      var m :| m in ms && NormalizeMac(Some(m.mac)) == n;
      assert NormalizeMac(Some("")) == "";
      assert m.mac != "";
    }
    if n in MacSet(Some(ms)) {
      var m :| m in ms && m.mac != "" && n == NormalizeMac(Some(m.mac));
    }
  }
}
