/** The katana device model (modules/prebid/katana/models/device.go): the
    OpenRTB device-type and platform codes, the IFA-type table, and
    `ExtDevice`, the parsed `device.ext` map with its getters and setters.
    The Go getters may delete an entry, so here they return the updated
    extension together with the value. */
module DeviceModel {
  import opened Base
  import opened Text
  import opened OpenRtb

  // `device.devicetype` codes of OpenRTB 2.5 (adcom1).
  const DeviceTypeMobile: int := 1
  const DeviceTypePersonalComputer: int := 2
  const DeviceTypeConnectedTv: int := 3
  const DeviceTypePhone: int := 4
  const DeviceTypeTablet: int := 5
  const DeviceTypeConnectedDevice: int := 6
  const DeviceTypeSetTopBox: int := 7

  // `DevicePlatform` codes.
  const PlatformUnknown: int := -1
  const PlatformDesktop: int := 1
  const PlatformMobileWeb: int := 2
  const PlatformNotDefined: int := 3
  const PlatformMobileAppIos: int := 4
  const PlatformMobileAppAndroid: int := 5
  const PlatformMobileAppWindows: int := 6
  const PlatformConnectedTv: int := 7

  // The IFA type names.
  const IFATypeDPID: string := "dpid"
  const IFATypeRIDA: string := "rida"
  const IFATypeAAID: string := "aaid"
  const IFATypeIDFA: string := "idfa"
  const IFATypeAFAI: string := "afai"
  const IFATypeMSAI: string := "msai"
  const IFATypePPID: string := "ppid"
  const IFATypeSSPID: string := "sspid"
  const IFATypeSessionID: string := "sessionid"
  const IFATypeIDSessionID: int := 9

  /** `DeviceIFATypeID`: the logger id of each IFA type. */
  const DeviceIFATypeID: map<string, int> := map[
    IFATypeDPID := 1, IFATypeRIDA := 2, IFATypeAAID := 3, IFATypeIDFA := 4, IFATypeAFAI := 5,
    IFATypeMSAI := 6, IFATypePPID := 7, IFATypeSSPID := 8, IFATypeSessionID := 9]

  /** The IFA type name of a logger id, the inverse of `DeviceIFATypeID`. */
  function IFATypeName(id: int): Option<string>
  {
    if id == 1 then Some(IFATypeDPID)
    else if id == 2 then Some(IFATypeRIDA)
    else if id == 3 then Some(IFATypeAAID)
    else if id == 4 then Some(IFATypeIDFA)
    else if id == 5 then Some(IFATypeAFAI)
    else if id == 6 then Some(IFATypeMSAI)
    else if id == 7 then Some(IFATypePPID)
    else if id == 8 then Some(IFATypeSSPID)
    else if id == 9 then Some(IFATypeSessionID)
    else None
  }

  /** The table maps its names onto 1..9 one-to-one (every id names back
      its own entry), and "sessionid" gets the session-id code 9. */
  lemma DeviceIFATypeIDTable()
    ensures forall name :: name in DeviceIFATypeID ==>
              1 <= DeviceIFATypeID[name] <= 9 && IFATypeName(DeviceIFATypeID[name]) == Some(name)
    ensures forall n :: 1 <= n <= 9 ==>
              IFATypeName(n).Some? && IFATypeName(n).value in DeviceIFATypeID && DeviceIFATypeID[IFATypeName(n).value] == n
    ensures DeviceIFATypeID[IFATypeSessionID] == IFATypeIDSessionID
  {
    assert DeviceIFATypeID.Keys == {IFATypeDPID, IFATypeRIDA, IFATypeAAID, IFATypeIDFA, IFATypeAFAI,
                                    IFATypeMSAI, IFATypePPID, IFATypeSSPID, IFATypeSessionID};
  }

  /** Two names with the same id are the same name. */
  lemma DeviceIFATypeIDInjective(a: string, b: string)
    requires a in DeviceIFATypeID && b in DeviceIFATypeID && DeviceIFATypeID[a] == DeviceIFATypeID[b]
    ensures a == b
  {
    DeviceIFATypeIDTable();
  }

  // `device.ext` keys.
  const ExtDeviceIFAType: string := "ifa_type"
  const ExtDeviceSessionID: string := "session_id"
  const ExtDeviceAtts: string := "atts"

  /** `ExtDevice`: the decoded `device.ext` object; `None` is the nil map
      that decoding the literal `null` leaves. */
  datatype ExtDevice = ExtDevice(data: Option<map<string, JsonValue>>)
  {
    /** `getStringValue`: a string entry is returned trimmed; an entry of
        another type is deleted and reported as found with the empty value. */
    function GetStringValue(key: string): (r: (ExtDevice, string, bool))
      ensures !r.2 <==> data.None? || key !in data.value
      ensures !r.2 ==> r == (this, "", false)
      ensures r.2 && data.value[key].JString? ==> r == (this, TrimSpace(data.value[key].s), true)
      ensures r.2 && !data.value[key].JString? ==> r == (ExtDevice(Some(data.value - {key})), "", true)
    {
      match data
      case None => (this, "", false)
      case Some(m) =>
        if key !in m then (this, "", false)
        else if m[key].JString? then (this, TrimSpace(m[key].s), true)
        else (ExtDevice(Some(m - {key})), "", true)
    }

    function GetIFAType(): (ExtDevice, string, bool)
    {
      GetStringValue(ExtDeviceIFAType)
    }

    function GetSessionID(): (ExtDevice, string, bool)
    {
      GetStringValue(ExtDeviceSessionID)
    }

    /** `getFloatValue`: a number entry is found; any other entry is
        reported as not found and stays in the map. */
    function GetFloatValue(key: string): (r: (real, bool))
      ensures r.1 <==> data.Some? && key in data.value && data.value[key].JNumber?
      ensures r.1 ==> r.0 == data.value[key].n
      ensures !r.1 ==> r.0 == 0.0
    {
      match data
      case None => (0.0, false)
      case Some(m) =>
        if key !in m then (0.0, false)
        else if m[key].JNumber? then (m[key].n, true)
        else (0.0, false)
    }

    /** `GetAtts`: the "atts" number, or nothing. */
    function GetAtts(): (r: Option<real>)
      ensures r.Some? <==> data.Some? && ExtDeviceAtts in data.value && data.value[ExtDeviceAtts].JNumber?
      ensures r.Some? ==> r.value == data.value[ExtDeviceAtts].n
    {
      var (v, ok) := GetFloatValue(ExtDeviceAtts);
      if ok then Some(v) else None
    }

    /** `setStringValue`: store a string, creating the map when it is nil. */
    function SetStringValue(key: string, value: string): (r: ExtDevice)
      ensures r.data.Some? && key in r.data.value && r.data.value[key] == JString(value)
      ensures forall k :: k != key ==>
                (k in r.data.value <==> data.Some? && k in data.value)
                && (k in r.data.value ==> r.data.value[k] == data.value[k])
    {
      match data
      case None => ExtDevice(Some(map[key := JString(value)]))
      case Some(m) => ExtDevice(Some(m[key := JString(value)]))
    }

    function SetIFAType(ifaType: string): ExtDevice
    {
      SetStringValue(ExtDeviceIFAType, ifaType)
    }

    function SetSessionID(sessionID: string): ExtDevice
    {
      SetStringValue(ExtDeviceSessionID, sessionID)
    }

    /** Go's `delete` on the map; a no-op on a nil map. */
    function Delete(key: string): (r: ExtDevice)
      ensures r.data.None? <==> data.None?
      ensures r.data.Some? ==> key !in r.data.value
      ensures r.data.Some? ==> forall k :: k != key ==>
                (k in r.data.value <==> k in data.value)
                && (k in r.data.value ==> r.data.value[k] == data.value[k])
    {
      match data
      case None => this
      case Some(m) => ExtDevice(Some(m - {key}))
    }

    function DeleteIFAType(): ExtDevice
    {
      Delete(ExtDeviceIFAType)
    }

    function DeleteSessionID(): ExtDevice
    {
      Delete(ExtDeviceSessionID)
    }
  }

  /** `DeviceCtx`: what the module keeps about the device for one request. */
  datatype DeviceCtx = DeviceCtx(
    deviceIFA: string,
    ifaTypeID: Option<int>,
    platform: int,
    ext: Option<ExtDevice>)

  /** After storing a string under a key, the string getter finds it, trimmed,
      and leaves the map as it is. */
  lemma SetThenGetString(e: ExtDevice, key: string, value: string)
    ensures var e2 := e.SetStringValue(key, value);
            e2.GetStringValue(key) == (e2, TrimSpace(value), true)
  {
  }

  /** `SetIFAType` and `SetSessionID` are read back by their getters. */
  lemma SetIFATypeAndSessionIDRoundTrip(e: ExtDevice, ifaType: string, sessionID: string)
    ensures e.SetIFAType(ifaType).GetIFAType().1 == TrimSpace(ifaType)
    ensures e.SetIFAType(ifaType).GetIFAType().2
    ensures e.SetSessionID(sessionID).GetSessionID().1 == TrimSpace(sessionID)
    ensures e.SetSessionID(sessionID).GetSessionID().2
  {
    SetThenGetString(e, ExtDeviceIFAType, ifaType);
    SetThenGetString(e, ExtDeviceSessionID, sessionID);
  }

  /** A second string read of the same key changes nothing more and returns
      the value of the first read. */
  lemma GetStringSettles(e: ExtDevice, key: string)
    ensures var (e1, v1, f1) := e.GetStringValue(key);
            var (e2, v2, f2) := e1.GetStringValue(key);
            e2 == e1 && v2 == v1 && (f2 <==> f1 && e1 == e)
  {
  }

  /** Deleting the IFA type keeps the session id, and the other way round. */
  lemma DeletesAreIndependent(e: ExtDevice)
    ensures e.DeleteIFAType().GetSessionID().1 == e.GetSessionID().1
    ensures e.DeleteIFAType().GetSessionID().2 == e.GetSessionID().2
    ensures e.DeleteSessionID().GetIFAType().1 == e.GetIFAType().1
    ensures e.DeleteSessionID().GetIFAType().2 == e.GetIFAType().2
    ensures e.DeleteSessionID().GetAtts() == e.GetAtts()
    ensures e.DeleteIFAType().GetAtts() == e.GetAtts()
  {
  }

  /** The string getter and the number getter differ on a wrongly typed
      entry: the first deletes it, the second leaves it. */
  lemma WrongTypeHandling(e: ExtDevice, key: string)
    requires e.data.Some? && key in e.data.value && e.data.value[key].JOther?
    ensures e.GetStringValue(key) == (ExtDevice(Some(e.data.value - {key})), "", true)
    ensures e.GetFloatValue(key) == (0.0, false)
  {
  }
}
