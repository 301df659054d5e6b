/** The floor facts a tracker reports, read from the auction response
    extension (`GetFloorsDetails` in modules/prebid/katana/utils/floors.go). */
module FloorsDetailsMapping {
  import opened Base
  import opened PriceFloors
  import opened KatanaModels

  /** `response.ext`, as far as `prebid.floors`. */
  datatype ExtResponsePrebid = ExtResponsePrebid(floors: Option<PriceFloorRules>)
  datatype ExtBidResponse = ExtBidResponse(prebid: Option<ExtResponsePrebid>)

  const SoftFloor: int := 0
  const HardFloor: int := 1

  /** `FloorSourceMap`: the code of each floor location. */
  const FloorSourceMap: map<string, int> := map[NoDataLocation := 0, RequestLocation := 1, FetchLocation := 2]

  /** `FetchStatusMap`: the code of each fetch status. */
  const FetchStatusMap: map<string, int> :=
    map[FetchNone := 0, FetchSuccess := 1, FetchError := 2, FetchInprogress := 3, FetchTimeout := 4]

  /** The location a floor-source code stands for. */
  function FloorSourceName(code: int): Option<string>
  {
    if code == 0 then Some(NoDataLocation)
    else if code == 1 then Some(RequestLocation)
    else if code == 2 then Some(FetchLocation)
    else None
  }

  /** The status a fetch-status code stands for. */
  function FetchStatusName(code: int): Option<string>
  {
    if code == 0 then Some(FetchNone)
    else if code == 1 then Some(FetchSuccess)
    else if code == 2 then Some(FetchError)
    else if code == 3 then Some(FetchInprogress)
    else if code == 4 then Some(FetchTimeout)
    else None
  }

  /** Both tables are one-to-one onto 0..2 and 0..4: every code names back
      its own entry. */
  lemma CodeTablesAreBijective()
    ensures forall loc :: loc in FloorSourceMap ==>
              0 <= FloorSourceMap[loc] <= 2 && FloorSourceName(FloorSourceMap[loc]) == Some(loc)
    ensures forall c :: 0 <= c <= 2 ==>
              FloorSourceName(c).Some? && FloorSourceName(c).value in FloorSourceMap && FloorSourceMap[FloorSourceName(c).value] == c
    ensures forall st :: st in FetchStatusMap ==>
              0 <= FetchStatusMap[st] <= 4 && FetchStatusName(FetchStatusMap[st]) == Some(st)
    ensures forall c :: 0 <= c <= 4 ==>
              FetchStatusName(c).Some? && FetchStatusName(c).value in FetchStatusMap && FetchStatusMap[FetchStatusName(c).value] == c
  {
    assert FloorSourceMap.Keys == {NoDataLocation, RequestLocation, FetchLocation};
    assert FetchStatusMap.Keys == {FetchNone, FetchSuccess, FetchError, FetchInprogress, FetchTimeout};
  }

  /** The code of a floor location, when the location is a known one. */
  function SourceCode(location: string): (r: Option<int>)
    ensures r.Some? <==> location != "" && location in FloorSourceMap
    ensures r.Some? ==> r.value == FloorSourceMap[location] && FloorSourceName(r.value) == Some(location)
  {
    CodeTablesAreBijective();
    if |location| > 0 && location in FloorSourceMap then Some(FloorSourceMap[location]) else None
  }

  /** The code of a fetch status, when the status is a known one. */
  function StatusCode(status: string): (r: Option<int>)
    ensures r.Some? <==> status in FetchStatusMap
    ensures r.Some? ==> r.value == FetchStatusMap[status] && FetchStatusName(r.value) == Some(status)
  {
    CodeTablesAreBijective();
    if status in FetchStatusMap then Some(FetchStatusMap[status]) else None
  }

  /** The details of one set of floor rules: hard floors exactly when the
      rules enforce them. */
  function DetailsOf(floors: PriceFloorRules): (r: FloorsDetails)
    ensures r.floorType == HardFloor <==>
              floors.enforcement.Some? && floors.enforcement.value.enforcePBS == Some(true)
    ensures r.floorType in {SoftFloor, HardFloor}
  {
    var skip := match floors.skipped
                case None => None
                case Some(skipped) => Some(if skipped then 1 else 0);
    var version :=
      if floors.data.Some? && |floors.data.value.modelGroups| > 0
      then floors.data.value.modelGroups[0].modelVersion else "";
    var provider :=
      if floors.data.Some? && |floors.data.value.floorProvider| > 0
      then floors.data.value.floorProvider else floors.floorProvider;
    var floorType :=
      if floors.enforcement.Some? && floors.enforcement.value.enforcePBS == Some(true)
      then HardFloor else SoftFloor;
    FloorsDetails(floorType, version, provider, skip, StatusCode(floors.fetchStatus), SourceCode(floors.location))
  }

  /** The skip flag is reported as 1 or 0 exactly when the rules say
      whether they were skipped. */
  lemma SkipFlagReported(floors: PriceFloorRules)
    ensures var r := DetailsOf(floors);
            && (r.skipFloors.None? <==> floors.skipped.None?)
            && (r.skipFloors == Some(1) <==> floors.skipped == Some(true))
            && (r.skipFloors == Some(0) <==> floors.skipped == Some(false))
  {
  }

  /** The model version is that of the first model group, and the provider
      that of the data when it names one and of the rules otherwise. */
  lemma VersionAndProviderReported(floors: PriceFloorRules)
    ensures var r := DetailsOf(floors);
            && (r.floorModelVersion != "" ==>
                  floors.data.Some? && |floors.data.value.modelGroups| > 0
                  && r.floorModelVersion == floors.data.value.modelGroups[0].modelVersion)
            && (floors.data.Some? && |floors.data.value.modelGroups| > 0 ==>
                  r.floorModelVersion == floors.data.value.modelGroups[0].modelVersion)
            && (floors.data.Some? && floors.data.value.floorProvider != "" ==>
                  r.floorProvider == floors.data.value.floorProvider)
            && (floors.data.None? || floors.data.value.floorProvider == "" ==> r.floorProvider == floors.floorProvider)
  {
  }

  /** Source and fetch status are reported exactly when they are known
      names, as the codes that name them back. */
  lemma CodesReported(floors: PriceFloorRules)
    ensures var r := DetailsOf(floors);
            && (r.floorSource.Some? <==> floors.location != "" && floors.location in FloorSourceMap)
            && (r.floorSource.Some? ==> FloorSourceName(r.floorSource.value) == Some(floors.location))
            && (r.floorFetchStatus.Some? <==> floors.fetchStatus in FetchStatusMap)
            && (r.floorFetchStatus.Some? ==> FetchStatusName(r.floorFetchStatus.value) == Some(floors.fetchStatus))
  {
  }

  /** `GetFloorsDetails`: the details of the response's floor rules, and
      none when the response carries no rules. */
  function GetFloorsDetails(ext: ExtBidResponse): (r: FloorsDetails)
    ensures ext.prebid.None? || ext.prebid.value.floors.None? ==> r == NoFloorsDetails
    ensures ext.prebid.Some? && ext.prebid.value.floors.Some? ==> r == DetailsOf(ext.prebid.value.floors.value)
  {
    match ext.prebid
    case None => NoFloorsDetails
    case Some(prebid) =>
      match prebid.floors
      case None => NoFloorsDetails
      case Some(floors) => DetailsOf(floors)
  }

  /** Fetcher statuses travel to trackers as codes: each of the five
      statuses gets its own code, and an unknown status none. */
  lemma FetchStatusCodes(floors: PriceFloorRules)
    ensures var d := GetFloorsDetails(ExtBidResponse(Some(ExtResponsePrebid(Some(floors)))));
            && (floors.fetchStatus == FetchSuccess ==> d.floorFetchStatus == Some(1))
            && (floors.fetchStatus == FetchInprogress ==> d.floorFetchStatus == Some(3))
            && (floors.fetchStatus == FetchTimeout ==> d.floorFetchStatus == Some(4))
            && (floors.fetchStatus !in {FetchNone, FetchSuccess, FetchError, FetchInprogress, FetchTimeout} ==>
                  d.floorFetchStatus.None?)
  {
    assert FetchStatusMap.Keys == {FetchNone, FetchSuccess, FetchError, FetchInprogress, FetchTimeout};
  }
}
