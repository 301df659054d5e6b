/** Device classification and IFA normalisation of the katana module
    (modules/prebid/katana/utils/device.go). The user-agent and OS regular
    expressions are unanchored alternations of literals, so a match is a
    substring test; the one wildcard, `D.*ATV`, is matched by a scanner
    proved equal to its meaning. */
module DevicePlatformDetection {
  import opened Base
  import opened Text
  import opened OpenRtb
  import opened DeviceModel

  // Request platforms (`models.PLATFORM_*`).
  const PlatformDisplay: string := "display"
  const PlatformAmp: string := "amp"
  const PlatformApp: string := "in-app"
  const PlatformVideo: string := "video"

  /** Some pattern of the list occurs in `s`. */
  predicate ContainsAny(s: string, patterns: seq<string>)
  {
    exists i :: 0 <= i < |patterns| && Contains(s, patterns[i])
  }

  /** The literal alternatives of the connected-TV pattern. */
  const CtvLiterals: seq<string> := [
    "Roku", "SMART-TV", "SmartTV", "AndroidTV", "Android TV", "AppleTV", "Apple TV",
    "VIZIO", "PHILIPS", "BRAVIA", "PlayStation", "Chromecast", "ExoPlayerLib", "MIBOX3",
    "Xbox", "ComcastAppPlatform", "AFT", "HiSmart", "BeyondTV", "PlexTV", "Xstream",
    "MiTV", "AI PONT"]

  /** What `D.*ATV` means: a 'D', then "ATV" later on the same line (`.`
      does not match a newline). */
  ghost predicate DThenATV(s: string)
  {
    exists d, j :: 0 <= d < j && d < |s| && s[d] == 'D' && OccursAt(s, "ATV", j) && NoNewline(s, d + 1, j)
  }

  predicate NoNewline(s: string, from: int, to: int)
  {
    forall m :: from <= m < to && 0 <= m < |s| ==> s[m] != '\n'
  }

  /** Scans from `k` for "ATV" before the next newline. */
  function ATVOnLineFrom(s: string, k: nat): bool
    decreases |s| - k
  {
    if k >= |s| then false
    else if OccursAt(s, "ATV", k) then true
    else if s[k] == '\n' then false
    else ATVOnLineFrom(s, k + 1)
  }

  /** Scans from `i` for a 'D' followed by "ATV" on the same line. */
  function DThenATVFrom(s: string, i: nat): bool
    decreases |s| - i
  {
    if i >= |s| then false
    else (s[i] == 'D' && ATVOnLineFrom(s, i + 1)) || DThenATVFrom(s, i + 1)
  }

  lemma {:induction false} ATVOnLineFromMeaning(s: string, k: nat)
    ensures ATVOnLineFrom(s, k) <==> exists j :: k <= j && OccursAt(s, "ATV", j) && NoNewline(s, k, j)
    decreases |s| - k
  {
    if k >= |s| {
      forall j | k <= j ensures !OccursAt(s, "ATV", j) {}
    } else if OccursAt(s, "ATV", k) {
      assert NoNewline(s, k, k);
    } else if s[k] == '\n' {
      forall j | k <= j && OccursAt(s, "ATV", j) ensures !NoNewline(s, k, j) {
        assert j != k;
      }
    } else {
      ATVOnLineFromMeaning(s, k + 1);
      if ATVOnLineFrom(s, k + 1) {
        var j :| k + 1 <= j && OccursAt(s, "ATV", j) && NoNewline(s, k + 1, j);
        assert NoNewline(s, k, j);
      }
      forall j | k <= j && OccursAt(s, "ATV", j) && NoNewline(s, k, j)
        ensures ATVOnLineFrom(s, k + 1)
      {
        assert j != k;
        assert NoNewline(s, k + 1, j);
      }
    }
  }

  lemma {:induction false} DThenATVFromMeaning(s: string, i: nat)
    ensures DThenATVFrom(s, i) <==>
            exists d, j :: i <= d < j && d < |s| && s[d] == 'D' && OccursAt(s, "ATV", j) && NoNewline(s, d + 1, j)
    decreases |s| - i
  {
    if i < |s| {
      DThenATVFromMeaning(s, i + 1);
      ATVOnLineFromMeaning(s, i + 1);
      forall d, j | i <= d < j && d < |s| && s[d] == 'D' && OccursAt(s, "ATV", j) && NoNewline(s, d + 1, j)
        ensures DThenATVFrom(s, i)
      {
        if d == i {
          assert ATVOnLineFrom(s, i + 1);
        } else {
          assert DThenATVFrom(s, i + 1);
        }
      }
    }
  }

  /** `isCTV`: the connected-TV pattern, on the user agent as given (not
      lower-cased). */
  function IsCTV(ua: string): bool
  {
    ContainsAny(ua, CtvLiterals) || DThenATVFrom(ua, 0)
  }

  /** The scanner decides exactly the connected-TV pattern. */
  lemma IsCTVMeaning(ua: string)
    ensures IsCTV(ua) <==> ContainsAny(ua, CtvLiterals) || DThenATV(ua)
  {
    DThenATVFromMeaning(ua, 0);
  }

  /** `isMobile`: a non-zero device type decides alone; type 0 falls back to
      the lower-cased user agent. */
  function IsMobile(deviceType: int, ua: string): (r: bool)
    ensures deviceType != 0 ==>
              (r <==> deviceType == DeviceTypeMobile || deviceType == DeviceTypeTablet || deviceType == DeviceTypePhone)
    ensures deviceType == 0 ==> (r <==> ContainsAny(ToLower(ua), ["mobi", "tablet", "ios"]))
  {
    if deviceType != 0 then
      deviceType == DeviceTypeMobile || deviceType == DeviceTypeTablet || deviceType == DeviceTypePhone
    else ContainsAny(ToLower(ua), ["mobi", "tablet", "ios"])
  }

  /** `isIos`: "ios" in the lower-cased OS, or an Apple token in the
      lower-cased user agent. */
  function IsIos(os: string, ua: string): bool
  {
    Contains(ToLower(os), "ios") || ContainsAny(ToLower(ua), ["iphone", "ipad", "darwin"])
  }

  /** `isAndroid`: "android" in the lower-cased OS or user agent. */
  function IsAndroid(os: string, ua: string): bool
  {
    Contains(ToLower(os), "android") || Contains(ToLower(ua), "android")
  }

  /** The device type of the request, 0 when there is no device. */
  function DeviceTypeOf(req: Option<BidRequest>): int
  {
    if req.Some? && req.value.device.Some? then req.value.device.value.deviceType else 0
  }

  /** The device OS of the request, "" when there is no device. */
  function OSOf(req: Option<BidRequest>): string
  {
    if req.Some? && req.value.device.Some? then req.value.device.value.os else ""
  }

  /** The app classification: iOS, else Android, else not defined. */
  function AppPlatform(os: string, ua: string): (r: int)
    ensures r == PlatformMobileAppIos <==> IsIos(os, ua)
    ensures r == PlatformMobileAppAndroid <==> !IsIos(os, ua) && IsAndroid(os, ua)
    ensures r == PlatformNotDefined <==> !IsIos(os, ua) && !IsAndroid(os, ua)
  {
    if IsIos(os, ua) then PlatformMobileAppIos
    else if IsAndroid(os, ua) then PlatformMobileAppAndroid
    else PlatformNotDefined
  }

  /** The web classification: mobile web or desktop. */
  function WebPlatform(deviceType: int, ua: string): (r: int)
    ensures r == PlatformMobileWeb <==> IsMobile(deviceType, ua)
    ensures r == PlatformDesktop <==> !IsMobile(deviceType, ua)
  {
    if IsMobile(deviceType, ua) then PlatformMobileWeb else PlatformDesktop
  }

  /** `GetDevicePlatform`. */
  function GetDevicePlatform(platform: string, ua: string, req: Option<BidRequest>): (r: int)
    ensures r in {PlatformDesktop, PlatformMobileWeb, PlatformNotDefined, PlatformMobileAppIos,
                  PlatformMobileAppAndroid, PlatformConnectedTv}
    ensures platform == PlatformAmp ==> r == PlatformMobileWeb
    ensures platform !in {PlatformAmp, PlatformApp, PlatformDisplay, PlatformVideo} ==> r == PlatformNotDefined
    ensures platform == PlatformApp ==> r == AppPlatform(OSOf(req), ua)
    ensures platform == PlatformDisplay ==> r == WebPlatform(DeviceTypeOf(req), ua)
    ensures platform == PlatformVideo ==>
              (r == PlatformConnectedTv <==>
                 DeviceTypeOf(req) in {DeviceTypeConnectedTv, DeviceTypeConnectedDevice, DeviceTypeSetTopBox}
                 || (DeviceTypeOf(req) == 0 && IsCTV(ua)))
    ensures platform == PlatformVideo && r != PlatformConnectedTv ==>
              if req.Some? && req.value.site.Some? then r == WebPlatform(DeviceTypeOf(req), ua)
              else if req.Some? && req.value.app.Some? then r == AppPlatform(OSOf(req), ua)
              else r == PlatformNotDefined
  {
    if platform == PlatformAmp then PlatformMobileWeb
    else if platform == PlatformApp then AppPlatform(OSOf(req), ua)
    else if platform == PlatformDisplay then WebPlatform(DeviceTypeOf(req), ua)
    else if platform == PlatformVideo then
      var deviceType := DeviceTypeOf(req);
      if deviceType != 0
         && (deviceType == DeviceTypeConnectedTv || deviceType == DeviceTypeConnectedDevice || deviceType == DeviceTypeSetTopBox)
      then PlatformConnectedTv
      else if deviceType == 0 && IsCTV(ua) then PlatformConnectedTv
      else if req.Some? && req.value.site.Some? then WebPlatform(deviceType, ua)
      else if req.Some? && req.value.app.Some? then AppPlatform(OSOf(req), ua)
      else PlatformNotDefined
    else PlatformNotDefined
  }

  /** The platform is never Unknown (-1) nor Windows (6). */
  lemma DevicePlatformNeverUnknownOrWindows(platform: string, ua: string, req: Option<BidRequest>)
    ensures GetDevicePlatform(platform, ua, req) != PlatformUnknown
    ensures GetDevicePlatform(platform, ua, req) != PlatformMobileAppWindows
  {
  }

  /** A CTV user agent does not override a non-zero, non-TV device type. */
  lemma CtvAgentNeedsUnknownType(ua: string, req: Option<BidRequest>)
    requires DeviceTypeOf(req) == DeviceTypeMobile
    ensures GetDevicePlatform(PlatformVideo, ua, req) != PlatformConnectedTv
  {
  }

  /** The stored "ifa_type" of an extension is normalised: absent, or a
      trimmed string whose lower-case form is a known IFA type. */
  predicate IFATypeNormalised(e: ExtDevice)
  {
    e.data.Some? && ExtDeviceIFAType in e.data.value ==>
      && e.data.value[ExtDeviceIFAType].JString?
      && TrimSpace(e.data.value[ExtDeviceIFAType].s) == e.data.value[ExtDeviceIFAType].s
      && ToLower(e.data.value[ExtDeviceIFAType].s) in DeviceIFATypeID
  }

  /** The extension after both string getters have run: a non-string
      "ifa_type" or "session_id" has been deleted. */
  function ReadExt(e: ExtDevice): ExtDevice
  {
    e.GetIFAType().0.GetSessionID().0
  }

  /** `updateDeviceIFADetails`. */
  function UpdateDeviceIFADetails(dvc: DeviceCtx): (r: DeviceCtx)
    ensures dvc.ext.None? ==> r == dvc
    ensures r.platform == dvc.platform && (r.ext.None? <==> dvc.ext.None?)
    ensures dvc.ext.Some? ==>
              var (_, ifaType, found) := dvc.ext.value.GetIFAType();
              var sessionID := dvc.ext.value.GetIFAType().0.GetSessionID().1;
              && (found && dvc.deviceIFA != "" && ToLower(ifaType) in DeviceIFATypeID ==>
                    r == dvc.(ifaTypeID := Some(DeviceIFATypeID[ToLower(ifaType)]),
                              ext := Some(ReadExt(dvc.ext.value).SetIFAType(ifaType))))
              && (found && dvc.deviceIFA != "" && ToLower(ifaType) !in DeviceIFATypeID ==>
                    r == dvc.(ext := Some(ReadExt(dvc.ext.value).DeleteIFAType())))
              && ((dvc.deviceIFA == "" || !found) && sessionID != "" ==>
                    r == dvc.(deviceIFA := sessionID, ifaTypeID := Some(IFATypeIDSessionID),
                              ext := Some(ReadExt(dvc.ext.value).SetIFAType(IFATypeSessionID))))
              && (found && dvc.deviceIFA == "" && sessionID == "" ==>
                    r == dvc.(ext := Some(ReadExt(dvc.ext.value).DeleteIFAType())))
              && (!found && sessionID == "" ==> r == dvc.(ext := Some(ReadExt(dvc.ext.value))))
  {
    match dvc.ext
    case None => dvc
    case Some(e) =>
      var (e1, ifaType, found) := e.GetIFAType();
      var (e2, sessionID, _) := e1.GetSessionID();
      if found then
        if dvc.deviceIFA != "" then
          var lower := ToLower(ifaType);
          if lower !in DeviceIFATypeID then dvc.(ext := Some(e2.DeleteIFAType()))
          else dvc.(ifaTypeID := Some(DeviceIFATypeID[lower]), ext := Some(e2.SetIFAType(ifaType)))
        else if sessionID != "" then
          dvc.(deviceIFA := sessionID, ifaTypeID := Some(IFATypeIDSessionID), ext := Some(e2.SetIFAType(IFATypeSessionID)))
        else dvc.(ext := Some(e2.DeleteIFAType()))
      else if sessionID != "" then
        dvc.(deviceIFA := sessionID, ifaTypeID := Some(IFATypeIDSessionID), ext := Some(e2.SetIFAType(IFATypeSessionID)))
      else dvc.(ext := Some(e2))
  }

  /** A stored "session_id", if any, is a string. */
  predicate SessionIDIsString(e: ExtDevice)
  {
    e.data.Some? && ExtDeviceSessionID in e.data.value ==> e.data.value[ExtDeviceSessionID].JString?
  }

  /** After both reads, a stored "session_id" is a string, and an
      "ifa_type" key is present only when the first read found it. */
  lemma ReadExtFacts(e: ExtDevice)
    ensures SessionIDIsString(ReadExt(e))
    ensures ReadExt(e).data.Some? && ExtDeviceIFAType in ReadExt(e).data.value ==> e.GetIFAType().2
    ensures ReadExt(e).data.Some? && ExtDeviceIFAType in ReadExt(e).data.value ==>
              ReadExt(e).data.value[ExtDeviceIFAType] == e.data.value[ExtDeviceIFAType]
  {
  }

  /** Storing a trimmed known IFA type leaves the extension normalised. */
  lemma SetKnownIFATypeNormalises(e: ExtDevice, v: string)
    requires TrimSpace(v) == v && ToLower(v) in DeviceIFATypeID && SessionIDIsString(e)
    ensures IFATypeNormalised(e.SetIFAType(v)) && SessionIDIsString(e.SetIFAType(v))
  {
    var m := e.SetIFAType(v).data.value;
    assert m[ExtDeviceIFAType] == JString(v);
    assert ExtDeviceSessionID != ExtDeviceIFAType by { assert ExtDeviceSessionID[0] != ExtDeviceIFAType[0]; }
  }

  /** Deleting the IFA type leaves the extension normalised. */
  lemma DeleteIFATypeNormalises(e: ExtDevice)
    requires SessionIDIsString(e)
    ensures IFATypeNormalised(e.DeleteIFAType()) && SessionIDIsString(e.DeleteIFAType())
  {
  }

  lemma SessionIDTypeIsTrimmedAndLower()
    ensures TrimSpace(IFATypeSessionID) == IFATypeSessionID
    ensures ToLower(IFATypeSessionID) == IFATypeSessionID
  {
    LowerWordIsTrimmed(IFATypeSessionID);
    LowerWordIsLower(IFATypeSessionID);
  }

  /** The state `updateDeviceIFADetails` leaves behind: the stored IFA
      type normalised, any stored session id a string, and a newly set IFA
      type id the table's id for the stored IFA type. */
  predicate IFADetailsNormalised(before: DeviceCtx, after: DeviceCtx)
  {
    && after.ext.Some?
    && IFATypeNormalised(after.ext.value)
    && SessionIDIsString(after.ext.value)
    && (after.ifaTypeID != before.ifaTypeID ==>
          && after.ext.value.data.Some? && ExtDeviceIFAType in after.ext.value.data.value
          && after.ifaTypeID == Some(DeviceIFATypeID[ToLower(after.ext.value.data.value[ExtDeviceIFAType].s)]))
  }

  /** After the update the device context is normalised. */
  lemma UpdateNormalisesIFAType(dvc: DeviceCtx)
    requires dvc.ext.Some?
    ensures IFADetailsNormalised(dvc, UpdateDeviceIFADetails(dvc))
  {
    var e := dvc.ext.value;
    if e.GetIFAType().2 && dvc.deviceIFA != "" {
      if ToLower(e.GetIFAType().1) in DeviceIFATypeID {
        KnownIFATypeKept(dvc);
      } else {
        IFATypeDropped(dvc);
      }
    } else if e.GetIFAType().0.GetSessionID().1 != "" {
      SessionIDTypeSet(dvc);
    } else {
      IFATypeDropped(dvc);
    }
  }

  /** A known IFA type that came with an IFA is kept, trimmed, with its
      table id. */
  lemma KnownIFATypeKept(dvc: DeviceCtx)
    requires dvc.ext.Some? && dvc.deviceIFA != ""
    requires dvc.ext.value.GetIFAType().2 && ToLower(dvc.ext.value.GetIFAType().1) in DeviceIFATypeID
    ensures IFADetailsNormalised(dvc, UpdateDeviceIFADetails(dvc))
  {
    var e := dvc.ext.value;
    var ifaType := e.GetIFAType().1;
    var e2 := ReadExt(e);
    var r := UpdateDeviceIFADetails(dvc);
    ReadExtFacts(e);
    assert TrimSpace(ifaType) == ifaType by {
      if e.data.value[ExtDeviceIFAType].JString? {
        TrimSpaceIdempotent(e.data.value[ExtDeviceIFAType].s);
      }
    }
    SetKnownIFATypeNormalises(e2, ifaType);
    assert r.ext.value == e2.SetIFAType(ifaType);
  }

  /** Without a session id to fall back on, an IFA type that is unknown or
      came without an IFA is deleted and the IFA type id is left alone. */
  lemma IFATypeDropped(dvc: DeviceCtx)
    requires dvc.ext.Some?
    requires || (dvc.ext.value.GetIFAType().2 && dvc.deviceIFA != ""
                 && ToLower(dvc.ext.value.GetIFAType().1) !in DeviceIFATypeID)
             || (!(dvc.ext.value.GetIFAType().2 && dvc.deviceIFA != "")
                 && dvc.ext.value.GetIFAType().0.GetSessionID().1 == "")
    ensures IFADetailsNormalised(dvc, UpdateDeviceIFADetails(dvc))
  {
    var e := dvc.ext.value;
    var e2 := ReadExt(e);
    var r := UpdateDeviceIFADetails(dvc);
    ReadExtFacts(e);
    if e.GetIFAType().2 {
      DeleteIFATypeNormalises(e2);
      assert r.ext.value == e2.DeleteIFAType();
    } else {
      assert r.ext.value == e2;
    }
    assert r.ifaTypeID == dvc.ifaTypeID;
  }

  /** A session id, when no IFA type applies, becomes the IFA with the
      session-id type. */
  lemma SessionIDTypeSet(dvc: DeviceCtx)
    requires dvc.ext.Some? && !(dvc.ext.value.GetIFAType().2 && dvc.deviceIFA != "")
    requires dvc.ext.value.GetIFAType().0.GetSessionID().1 != ""
    ensures IFADetailsNormalised(dvc, UpdateDeviceIFADetails(dvc))
  {
    var e2 := ReadExt(dvc.ext.value);
    var r := UpdateDeviceIFADetails(dvc);
    ReadExtFacts(dvc.ext.value);
    SessionIDTypeIsTrimmedAndLower();
    SetKnownIFATypeNormalises(e2, IFATypeSessionID);
    assert r.ext.value == e2.SetIFAType(IFATypeSessionID);
  }

  /** Without an "ifa_type" key, a non-empty session id replaces the IFA
      even when the request carried one. */
  lemma SessionIDOverridesIFAWithoutType(dvc: DeviceCtx, sessionID: string)
    requires dvc.deviceIFA != "" && TrimSpace(sessionID) != ""
    requires dvc.ext == Some(ExtDevice(Some(map[ExtDeviceSessionID := JString(sessionID)])))
    ensures UpdateDeviceIFADetails(dvc).deviceIFA == TrimSpace(sessionID)
    ensures UpdateDeviceIFADetails(dvc).ifaTypeID == Some(IFATypeIDSessionID)
  {
  }

  /** `PopulateDeviceContext`. */
  function PopulateDeviceContext(dvc: DeviceCtx, device: Option<Device>): (r: DeviceCtx)
    ensures device.None? ==> r == dvc
    ensures device.Some? && (device.value.ext.NoExt? || device.value.ext.NotObject?) ==>
              r == dvc.(deviceIFA := TrimSpace(device.value.ifa))
    ensures device.Some? && device.value.ext.JsonNull? ==>
              r == UpdateDeviceIFADetails(dvc.(deviceIFA := TrimSpace(device.value.ifa), ext := Some(ExtDevice(None))))
    ensures device.Some? && device.value.ext.Object? ==>
              r == UpdateDeviceIFADetails(dvc.(deviceIFA := TrimSpace(device.value.ifa),
                                               ext := Some(ExtDevice(Some(device.value.ext.fields)))))
  {
    match device
    case None => dvc
    case Some(d) =>
      var withIFA := dvc.(deviceIFA := TrimSpace(d.ifa));
      match d.ext
      case NoExt => withIFA
      case NotObject(_) => withIFA
      case JsonNull => UpdateDeviceIFADetails(withIFA.(ext := Some(ExtDevice(None))))
      case Object(fields) => UpdateDeviceIFADetails(withIFA.(ext := Some(ExtDevice(Some(fields)))))
  }

  /** The context's IFA is the trimmed device IFA unless the session id
      took its place; the extension is set exactly when `device.ext` parses. */
  lemma PopulateDeviceContextOutcome(dvc: DeviceCtx, device: Device)
    ensures var r := PopulateDeviceContext(dvc, Some(device));
            && (r.deviceIFA == TrimSpace(device.ifa) || r.ifaTypeID == Some(IFATypeIDSessionID))
            && ((device.ext.JsonNull? || device.ext.Object?) ==> r.ext.Some? && IFATypeNormalised(r.ext.value))
            && ((device.ext.NoExt? || device.ext.NotObject?) ==> r.ext == dvc.ext)
  {
    if device.ext.JsonNull? || device.ext.Object? {
      var withIFA := dvc.(deviceIFA := TrimSpace(device.ifa));
      var ext := if device.ext.JsonNull? then ExtDevice(None) else ExtDevice(Some(device.ext.fields));
      UpdateNormalisesIFAType(withIFA.(ext := Some(ext)));
    }
  }
}
