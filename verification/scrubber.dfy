/** The PII scrubber of privacy/scrubber.go. Go scrubs shallow copies of
    the device and user, but writes the source TID and the impression
    extensions into the caller's request and returns that same request;
    here every operation returns a new value holding the scrubbed fields. */
module Scrubber {
  import opened Base
  import opened Text
  import opened OpenRtb
  import opened Decimal

  datatype IPv4Strategy = IPv4None | IPv4Lowest8
  datatype IPv6Strategy = IPv6None | IPv6Lowest16 | IPv6Lowest32
  datatype GeoStrategy = GeoNone | GeoFull | GeoReducedPrecision
  datatype UserStrategy = UserNone | UserIDAndDemographic
  datatype DeviceIDStrategy = DeviceIDNone | DeviceIDAll

  /** Which activities are not allowed for the request. */
  datatype Enforcement = Enforcement(ufpd: bool, eids: bool, tid: bool, preciseGeo: bool)

  /** `scrubIPV4Lowest8`: the text after the last '.' becomes "0"; no '.'
      gives the empty string. */
  function ScrubIPV4Lowest8(ip: string): (r: string)
    ensures r == "" <==> '.' !in ip
    ensures r != "" ==>
              && |r| >= 2 && r[|r| - 2..] == ".0"
              && |r| - 2 < |ip| && r[..|r| - 2] == ip[..|r| - 2]
              && ip[|r| - 2] == '.' && '.' !in ip[|r| - 1..]
  {
    var i := LastIndexOf(ip, '.');
    if i == -1 then "" else ip[0..i] + ".0"
  }

  /** Scrubbing an already scrubbed IPv4 address changes nothing. */
  lemma ScrubIPV4Idempotent(ip: string)
    ensures ScrubIPV4Lowest8(ScrubIPV4Lowest8(ip)) == ScrubIPV4Lowest8(ip)
  {
    var r := ScrubIPV4Lowest8(ip);
    if r != "" {
      assert r[|r| - 2] == '.' && '.' !in r[|r| - 1..];
      assert LastIndexOf(r, '.') == |r| - 2;
    }
  }

  /** `removeLowestIPV6Segment`: everything before the last ':'; no ':'
      gives the empty string. */
  function RemoveLowestIPV6Segment(ip: string): (r: string)
    ensures ':' !in ip ==> r == ""
    ensures ':' in ip ==> |r| < |ip| && r == ip[..|r|] && ip[|r|] == ':' && ':' !in ip[|r| + 1..]
  {
    var i := LastIndexOf(ip, ':');
    if i == -1 then "" else ip[0..i]
  }

  /** `scrubIPV6Lowest16Bits`: drop the last segment and append ":0", unless
      nothing is left. */
  function ScrubIPV6Lowest16Bits(ip: string): (r: string)
    ensures r == "" <==> RemoveLowestIPV6Segment(ip) == ""
    ensures r != "" ==> |r| > 2 && r[..|r| - 2] == RemoveLowestIPV6Segment(ip) && r[|r| - 2..] == ":0"
  {
    var stripped := RemoveLowestIPV6Segment(ip);
    if stripped != "" then stripped + ":0" else stripped
  }

  /** `scrubIPV6Lowest32Bits`: drop the last two segments and append ":0:0",
      unless nothing is left. */
  function ScrubIPV6Lowest32Bits(ip: string): (r: string)
    ensures r == "" <==> RemoveLowestIPV6Segment(RemoveLowestIPV6Segment(ip)) == ""
    ensures r != "" ==>
              && |r| > 4
              && r[..|r| - 4] == RemoveLowestIPV6Segment(RemoveLowestIPV6Segment(ip))
              && r[|r| - 4..] == ":0:0"
  {
    var stripped := RemoveLowestIPV6Segment(RemoveLowestIPV6Segment(ip));
    if stripped != "" then stripped + ":0:0" else stripped
  }

  /** A scrubbed IPv6 address is a prefix of the input that ends right before
      a ':' followed by the given zero suffix, or it is empty. */
  lemma IPv6ScrubKeepsPrefix(ip: string)
    ensures var r := ScrubIPV6Lowest16Bits(ip);
            r == "" || (|r| - 2 < |ip| && r[..|r| - 2] == ip[..|r| - 2] && ip[|r| - 2] == ':')
    ensures var r := ScrubIPV6Lowest32Bits(ip);
            r == "" || (|r| - 4 < |ip| && r[..|r| - 4] == ip[..|r| - 4] && ip[|r| - 4] == ':')
  {
    var once := RemoveLowestIPV6Segment(ip);
    var twice := RemoveLowestIPV6Segment(once);
    if twice != "" {
      assert ':' in once;
      assert once == ip[..|once|];
      assert twice == once[..|twice|];
    }
  }

  /** `scrubGeoFull`: a present geo becomes the empty geo. */
  function ScrubGeoFull(geo: Option<Geo>): (r: Option<Geo>)
    ensures geo.None? <==> r.None?
    ensures r.Some? ==> r.value == EmptyGeo
  {
    match geo
    case None => None
    case Some(_) => Some(EmptyGeo)
  }

  /** The coordinate rounding of `scrubGeoPrecision` as written:
      `int(x*100 + 0.5) / 100`. */
  function RoundCoordinateAsWritten(x: real): (r: real)
    ensures -0.005 < r - x < 0.015
    ensures x * 100.0 + 0.5 >= 0.0 ==> r - x <= 0.005
  {
    Truncate(x * 100.0 + 0.5) as real / 100.0
  }

  /** As written, a negative coordinate is not rounded to the nearest
      hundredth: -1.234 becomes -1.22 where -1.23 is nearest. */
  lemma RoundCoordinateAsWrittenMissesNegatives()
    ensures RoundCoordinateAsWritten(-1.234) == -1.22
    ensures -1.234 - RoundCoordinateAsWritten(-1.234) < -0.005
  {
    assert -1.234 * 100.0 + 0.5 == -122.9;
    assert Truncate(-122.9) == -122;
  }

  /** Rounding half up to the nearest hundredth, for either sign. */
  function RoundCoordinate(x: real): (r: real)
    ensures -0.005 < r - x <= 0.005
  {
    (x * 100.0 + 0.5).Floor as real / 100.0
  }

  /** Both roundings agree on non-negative coordinates, in exact
      arithmetic. */
  lemma RoundCoordinateAgreesOnNonNegatives(x: real)
    requires x >= 0.0
    ensures RoundCoordinate(x) == RoundCoordinateAsWritten(x)
  {
  }

  /** `scrubGeoPrecision` with coordinates rounded to the nearest hundredth;
      every other field is kept. */
  function ScrubGeoPrecision(geo: Option<Geo>): (r: Option<Geo>)
    ensures geo.None? <==> r.None?
    ensures r.Some? ==>
              && r.value.(lat := geo.value.lat, lon := geo.value.lon) == geo.value
              && -0.005 < r.value.lat - geo.value.lat <= 0.005
              && -0.005 < r.value.lon - geo.value.lon <= 0.005
  {
    match geo
    case None => None
    case Some(g) => Some(g.(lat := RoundCoordinate(g.lat), lon := RoundCoordinate(g.lon)))
  }

  /** `scrubGeoPrecision` as written, with the truncating rounding: every
      other field is kept, and a coordinate may move up by almost one and a
      half hundredths. */
  function ScrubGeoPrecisionAsWritten(geo: Option<Geo>): (r: Option<Geo>)
    ensures geo.None? <==> r.None?
    ensures r.Some? ==>
              && r.value.(lat := geo.value.lat, lon := geo.value.lon) == geo.value
              && -0.005 < r.value.lat - geo.value.lat < 0.015
              && -0.005 < r.value.lon - geo.value.lon < 0.015
  {
    match geo
    case None => None
    case Some(g) => Some(g.(lat := RoundCoordinateAsWritten(g.lat), lon := RoundCoordinateAsWritten(g.lon)))
  }

  /** The corrected scrub differs from the source's only where a coordinate
      is negative. */
  lemma ScrubGeoPrecisionAgreesOnNonNegatives(geo: Option<Geo>)
    requires geo.Some? ==> geo.value.lat >= 0.0 && geo.value.lon >= 0.0
    ensures ScrubGeoPrecision(geo) == ScrubGeoPrecisionAsWritten(geo)
  {
    if geo.Some? {
      RoundCoordinateAgreesOnNonNegatives(geo.value.lat);
      RoundCoordinateAgreesOnNonNegatives(geo.value.lon);
    }
  }

  /** `scrubExtIDs`: remove one key from an extension object; an empty,
      non-object or key-less extension is returned as it is. */
  function ScrubExtIDs(ext: JsonExt, field: string): (r: JsonExt)
    ensures ext.Object? && field in ext.fields ==> r == Object(ext.fields - {field})
    ensures !(ext.Object? && field in ext.fields) ==> r == ext
    ensures r.Object? ==> field !in r.fields
  {
    match ext
    case NoExt => ext
    case JsonNull => ext
    case NotObject(_) => ext
    case Object(fields) =>
      if field in fields then Object(fields - {field}) else ext
  }

  /** Removing a key twice is the same as removing it once. */
  lemma ScrubExtIDsIdempotent(ext: JsonExt, field: string)
    ensures ScrubExtIDs(ScrubExtIDs(ext, field), field) == ScrubExtIDs(ext, field)
  {
  }

  /** The device with all seven hardware and device id fields cleared. */
  function ClearDeviceIDs(d: Device): Device
  {
    d.(didMD5 := "", didSHA1 := "", dpidMD5 := "", dpidSHA1 := "", ifa := "", macMD5 := "", macSHA1 := "")
  }

  /** The two devices agree on everything but ids, addresses and geo. */
  predicate SameDeviceOtherwise(a: Device, b: Device)
  {
    a.(ifa := b.ifa, didMD5 := b.didMD5, didSHA1 := b.didSHA1, dpidMD5 := b.dpidMD5,
       dpidSHA1 := b.dpidSHA1, macMD5 := b.macMD5, macSHA1 := b.macSHA1,
       ip := b.ip, ipv6 := b.ipv6, geo := b.geo) == b
  }

  /** The seven id fields of the two devices are equal. */
  predicate SameDeviceIDs(a: Device, b: Device)
  {
    && a.ifa == b.ifa && a.didMD5 == b.didMD5 && a.didSHA1 == b.didSHA1
    && a.dpidMD5 == b.dpidMD5 && a.dpidSHA1 == b.dpidSHA1
    && a.macMD5 == b.macMD5 && a.macSHA1 == b.macSHA1
  }

  predicate DeviceIDsCleared(d: Device)
  {
    && d.ifa == "" && d.didMD5 == "" && d.didSHA1 == ""
    && d.dpidMD5 == "" && d.dpidSHA1 == "" && d.macMD5 == "" && d.macSHA1 == ""
  }

  /** `ScrubDevice`. */
  function ScrubDevice(device: Option<Device>, id: DeviceIDStrategy, ipv4: IPv4Strategy,
                       ipv6: IPv6Strategy, geo: GeoStrategy): (r: Option<Device>)
    ensures device.None? <==> r.None?
    ensures r.Some? ==> SameDeviceOtherwise(r.value, device.value)
    ensures r.Some? && id == DeviceIDAll ==> DeviceIDsCleared(r.value)
    ensures r.Some? && id == DeviceIDNone ==> SameDeviceIDs(r.value, device.value)
    ensures r.Some? ==> r.value.ip == (if ipv4 == IPv4Lowest8 then ScrubIPV4Lowest8(device.value.ip) else device.value.ip)
    ensures r.Some? && ipv6 == IPv6None ==> r.value.ipv6 == device.value.ipv6
    ensures r.Some? && ipv6 == IPv6Lowest16 ==> r.value.ipv6 == ScrubIPV6Lowest16Bits(device.value.ipv6)
    ensures r.Some? && ipv6 == IPv6Lowest32 ==> r.value.ipv6 == ScrubIPV6Lowest32Bits(device.value.ipv6)
    ensures r.Some? && geo == GeoNone ==> r.value.geo == device.value.geo
    ensures r.Some? && geo == GeoFull ==> r.value.geo == ScrubGeoFull(device.value.geo)
    ensures r.Some? && geo == GeoReducedPrecision ==> r.value.geo == ScrubGeoPrecision(device.value.geo)
  {
    match device
    case None => None
    case Some(d) =>
      var withIDs := if id == DeviceIDAll then ClearDeviceIDs(d) else d;
      var withIPv4 := if ipv4 == IPv4Lowest8 then withIDs.(ip := ScrubIPV4Lowest8(d.ip)) else withIDs;
      var withIPv6 :=
        match ipv6
        case IPv6Lowest16 => withIPv4.(ipv6 := ScrubIPV6Lowest16Bits(d.ipv6))
        case IPv6Lowest32 => withIPv4.(ipv6 := ScrubIPV6Lowest32Bits(d.ipv6))
        case IPv6None => withIPv4;
      var withGeo :=
        match geo
        case GeoFull => withIPv6.(geo := ScrubGeoFull(d.geo))
        case GeoReducedPrecision => withIPv6.(geo := ScrubGeoPrecision(d.geo))
        case GeoNone => withIPv6;
      Some(withGeo)
  }

  /** With every strategy at "none" the copy equals the input. */
  lemma ScrubDeviceNoneIsIdentity(device: Option<Device>)
    ensures ScrubDevice(device, DeviceIDNone, IPv4None, IPv6None, GeoNone) == device
  {
  }

  /** `ScrubUser`. */
  function ScrubUser(user: Option<User>, strategy: UserStrategy, geo: GeoStrategy): (r: Option<User>)
    ensures user.None? <==> r.None?
    ensures r.Some? ==>
              r.value.(buyerUID := user.value.buyerUID, id := user.value.id, ext := user.value.ext,
                       yob := user.value.yob, gender := user.value.gender, geo := user.value.geo) == user.value
    ensures r.Some? && strategy == UserIDAndDemographic ==>
              && r.value.buyerUID == "" && r.value.id == "" && r.value.yob == 0 && r.value.gender == ""
              && r.value.ext == ScrubExtIDs(user.value.ext, "eids")
    ensures r.Some? && strategy == UserNone ==>
              r.value.(geo := user.value.geo) == user.value
    ensures r.Some? && geo == GeoNone ==> r.value.geo == user.value.geo
    ensures r.Some? && geo == GeoFull ==> r.value.geo == ScrubGeoFull(user.value.geo)
    ensures r.Some? && geo == GeoReducedPrecision ==> r.value.geo == ScrubGeoPrecision(user.value.geo)
  {
    match user
    case None => None
    case Some(u) =>
      var scrubbed :=
        if strategy == UserIDAndDemographic
        then u.(buyerUID := "", id := "", ext := ScrubExtIDs(u.ext, "eids"), yob := 0, gender := "")
        else u;
      var withGeo :=
        match geo
        case GeoFull => scrubbed.(geo := ScrubGeoFull(u.geo))
        case GeoReducedPrecision => scrubbed.(geo := ScrubGeoPrecision(u.geo))
        case GeoNone => scrubbed;
      Some(withGeo)
  }

  /** The user extension after `ScrubRequest`: "data" goes under UFPD and
      "eids" under Eids; the extension is rewritten only when one of them
      was present. */
  function ScrubUserExt(ext: JsonExt, ufpd: bool, eids: bool): (r: JsonExt)
    ensures ext.Object? && ((ufpd && "data" in ext.fields) || (eids && "eids" in ext.fields)) ==>
              r.Object? && r.fields.Keys == ext.fields.Keys - (if ufpd then {"data"} else {}) - (if eids then {"eids"} else {})
              && forall k :: k in r.fields ==> r.fields[k] == ext.fields[k]
    ensures !(ext.Object? && ((ufpd && "data" in ext.fields) || (eids && "eids" in ext.fields))) ==> r == ext
  {
    match ext
    case Object(fields) =>
      var removed := (if ufpd then {"data"} else {}) + (if eids then {"eids"} else {});
      if removed * fields.Keys == {} then ext else Object(fields - removed)
    case _ => ext
  }

  /** The user fields that UFPD enforcement clears. */
  function ClearUserFirstPartyData(u: User): User
  {
    u.(data := None, id := "", buyerUID := "", yob := 0, gender := "", keywords := "", kwArray := None)
  }

  /** The device part of `ScrubRequest`: UFPD clears the ids, PreciseGeo
      rounds the geo and truncates both addresses. */
  function ScrubRequestDevice(device: Option<Device>, enf: Enforcement): (r: Option<Device>)
    ensures r.None? <==> device.None?
    ensures r.Some? ==> SameDeviceOtherwise(r.value, device.value)
    ensures r.Some? && enf.ufpd ==> DeviceIDsCleared(r.value)
    ensures r.Some? && !enf.ufpd ==> SameDeviceIDs(r.value, device.value)
    ensures r.Some? && enf.preciseGeo ==>
              && r.value.ip == ScrubIPV4Lowest8(device.value.ip)
              && r.value.ipv6 == ScrubIPV6Lowest32Bits(device.value.ipv6)
              && r.value.geo == ScrubGeoPrecision(device.value.geo)
    ensures r.Some? && !enf.preciseGeo ==>
              && r.value.ip == device.value.ip
              && r.value.ipv6 == device.value.ipv6
              && r.value.geo == device.value.geo
  {
    match device
    case None => None
    case Some(d) =>
      var d1 := if enf.ufpd then ClearDeviceIDs(d) else d;
      Some(if enf.preciseGeo
           then d1.(geo := ScrubGeoPrecision(d.geo), ip := ScrubIPV4Lowest8(d.ip), ipv6 := ScrubIPV6Lowest32Bits(d.ipv6))
           else d1)
  }

  /** The user part of `ScrubRequest`. */
  function ScrubRequestUser(user: Option<User>, enf: Enforcement): (r: Option<User>)
    ensures r.None? <==> user.None?
    ensures r.Some? && enf.ufpd ==>
              && r.value.data.None? && r.value.id == "" && r.value.buyerUID == ""
              && r.value.yob == 0 && r.value.gender == "" && r.value.keywords == ""
              && r.value.kwArray.None?
              && (r.value.ext.Object? ==> "data" !in r.value.ext.fields)
    ensures r.Some? && enf.eids ==>
              && r.value.eids.None?
              && (r.value.ext.Object? ==> "eids" !in r.value.ext.fields)
    ensures r.Some? ==> r.value.ext == ScrubUserExt(user.value.ext, enf.ufpd, enf.eids)
    ensures r.Some? && !enf.ufpd && !enf.eids ==> r.value.(geo := user.value.geo) == user.value
    ensures r.Some? && !enf.ufpd ==> r.value.(eids := user.value.eids, ext := user.value.ext, geo := user.value.geo) == user.value
    ensures r.Some? && !enf.eids ==> r.value.eids == user.value.eids
    ensures r.Some? ==> r.value.geo == (if enf.preciseGeo then ScrubGeoPrecision(user.value.geo) else user.value.geo)
  {
    match user
    case None => None
    case Some(u) =>
      var u1 := if enf.ufpd then ClearUserFirstPartyData(u) else u;
      var u2 := if enf.eids then u1.(eids := None) else u1;
      var u3 := u2.(ext := ScrubUserExt(u.ext, enf.ufpd, enf.eids));
      Some(if enf.preciseGeo then u3.(geo := ScrubGeoPrecision(u.geo)) else u3)
  }

  /** The imp part of `ScrubRequest`: under TID every imp loses `ext.tid`. */
  function ScrubRequestImps(imps: seq<Imp>, tid: bool): (r: seq<Imp>)
    ensures |r| == |imps|
    ensures forall k :: 0 <= k < |r| ==>
              r[k] == (if tid then imps[k].(ext := ScrubExtIDs(imps[k].ext, "tid")) else imps[k])
  {
    if tid then seq(|imps|, k requires 0 <= k < |imps| => imps[k].(ext := ScrubExtIDs(imps[k].ext, "tid")))
    else imps
  }

  /** `ScrubRequest`: UFPD clears device ids, user first-party fields and
      `user.ext.data`; Eids clears `user.eids` and `user.ext.eids`; TID
      clears `source.tid` and every imp's `ext.tid`; PreciseGeo rounds both
      geos and truncates both device addresses. Nothing else changes. */
  function ScrubRequest(req: BidRequest, enf: Enforcement): (r: BidRequest)
    ensures r.(device := req.device, user := req.user, source := req.source, imps := req.imps) == req
    ensures r.device == ScrubRequestDevice(req.device, enf)
    ensures r.user == ScrubRequestUser(req.user, enf)
    ensures r.source.None? <==> req.source.None?
    ensures r.source.Some? ==> r.source.value.tid == (if enf.tid then "" else req.source.value.tid)
    ensures r.imps == ScrubRequestImps(req.imps, enf.tid)
  {
    var source :=
      match req.source
      case None => None
      case Some(src) => Some(if enf.tid then src.(tid := "") else src);
    req.(device := ScrubRequestDevice(req.device, enf), user := ScrubRequestUser(req.user, enf),
         source := source, imps := ScrubRequestImps(req.imps, enf.tid))
  }

  /** With no enforcement flag set the request comes back unchanged. */
  lemma ScrubRequestNoFlagsIsIdentity(req: BidRequest)
    ensures ScrubRequest(req, Enforcement(false, false, false, false)) == req
  {
  }

  /** The request scrub with UFPD applies the same device-id clearing as
      `ScrubDevice` with `DeviceIDAll`, and PreciseGeo the same address and
      geo handling as the lowest-8 / lowest-32 / reduced-precision
      strategies. */
  lemma ScrubRequestAgreesWithScrubDevice(device: Option<Device>, enf: Enforcement)
    ensures ScrubRequestDevice(device, enf) ==
            ScrubDevice(device,
                        if enf.ufpd then DeviceIDAll else DeviceIDNone,
                        if enf.preciseGeo then IPv4Lowest8 else IPv4None,
                        if enf.preciseGeo then IPv6Lowest32 else IPv6None,
                        if enf.preciseGeo then GeoReducedPrecision else GeoNone)
  {
  }
}
