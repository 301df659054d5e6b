/** The impression-tracker URL of a bid (`constructTrackerURL` in
    modules/prebid/katana/tracker/url.go): the tracker endpoint followed by
    the query that carries the tracker's fields. URL parsing, query encoding
    and float formatting are the Go library's and enter as functions. */
module TrackerUrl {
  import opened Base
  import opened Decimal
  import opened KatanaModels

  /** The library calls the tracker code makes. */
  datatype UrlEnv = UrlEnv(
    /** `url.Parse(raw)` followed by `.Host`; `None` when parsing fails. */
    urlHost: string -> Option<string>,
    /** `url.Parse(raw)` followed by `.String()`; `None` when parsing fails. */
    urlString: string -> Option<string>,
    /** `url.Values.Encode` of a query with one value per parameter, each
        parameter written under its `KeyName`. */
    encodeQuery: map<QueryKey, string> -> string,
    /** `fmt.Sprint` of a float64. */
    formatFloat: real -> string)

  /** The query parameters of a tracker URL. */
  datatype QueryKey =
    PubID | PageURL | Timestamp | IID | ProfileID | VersionID | SlotID | Adunit
    | RewardedInventory | Platform | PubDomain | PartnerID | BidderCode | GrossECPM | NetECPM | BidID
    | OrigBidID | AdSize | AdDuration | Adformat | ServerSide | Advertiser | FloorType | FloorSkippedFlag
    | FloorModelVersion | FloorSource | FloorValue | FloorRuleValue | ServerLogger | DealID | ATTS

  /** The name of a parameter on the wire. */
  function KeyName(k: QueryKey): string
  {
    match k
    case PubID => "pubid"
    case PageURL => "purl"
    case Timestamp => "tst"
    case IID => "iid"
    case ProfileID => "pid"
    case VersionID => "pdvid"
    case SlotID => "slot"
    case Adunit => "au"
    case RewardedInventory => "rwrd"
    case Platform => "plt"
    case PubDomain => "orig"
    case PartnerID => "pn"
    case BidderCode => "bc"
    case GrossECPM => "eg"
    case NetECPM => "en"
    case BidID => "bidid"
    case OrigBidID => "origbidid"
    case AdSize => "psz"
    case AdDuration => "dur"
    case Adformat => "af"
    case ServerSide => "ss"
    case Advertiser => "adv"
    case FloorType => "ft"
    case FloorSkippedFlag => "fskp"
    case FloorModelVersion => "fmv"
    case FloorSource => "fsrc"
    case FloorValue => "fv"
    case FloorRuleValue => "frv"
    case ServerLogger => "sl"
    case DealID => "di"
    case ATTS => "atts"
  }

  /** The parameter a wire name stands for: the inverse of `KeyName`
      (`KeyOfName`). The names are grouped by length and first character,
      so each name is compared only with the few names of its group. */
  function KeyOf(name: string): Option<QueryKey>
  {
    if |name| == 0 then None
    else if |name| == 5 && name[0] == 'p' then
      if name == "pubid" then Some(PubID)
      else if name == "pdvid" then Some(VersionID)
      else None
    else if |name| == 4 && name[0] == 'p' then
      if name == "purl" then Some(PageURL)
      else None
    else if |name| == 3 && name[0] == 't' then
      if name == "tst" then Some(Timestamp)
      else None
    else if |name| == 3 && name[0] == 'i' then
      if name == "iid" then Some(IID)
      else None
    else if |name| == 3 && name[0] == 'p' then
      if name == "pid" then Some(ProfileID)
      else if name == "plt" then Some(Platform)
      else if name == "psz" then Some(AdSize)
      else None
    else if |name| == 4 && name[0] == 's' then
      if name == "slot" then Some(SlotID)
      else None
    else if |name| == 2 && name[0] == 'a' then
      if name == "au" then Some(Adunit)
      else if name == "af" then Some(Adformat)
      else None
    else if |name| == 4 && name[0] == 'r' then
      if name == "rwrd" then Some(RewardedInventory)
      else None
    else if |name| == 4 && name[0] == 'o' then
      if name == "orig" then Some(PubDomain)
      else None
    else if |name| == 2 && name[0] == 'p' then
      if name == "pn" then Some(PartnerID)
      else None
    else if |name| == 2 && name[0] == 'b' then
      if name == "bc" then Some(BidderCode)
      else None
    else if |name| == 2 && name[0] == 'e' then
      if name == "eg" then Some(GrossECPM)
      else if name == "en" then Some(NetECPM)
      else None
    else if |name| == 5 && name[0] == 'b' then
      if name == "bidid" then Some(BidID)
      else None
    else if |name| == 9 && name[0] == 'o' then
      if name == "origbidid" then Some(OrigBidID)
      else None
    else if |name| == 3 && name[0] == 'd' then
      if name == "dur" then Some(AdDuration)
      else None
    else if |name| == 2 && name[0] == 's' then
      if name == "ss" then Some(ServerSide)
      else if name == "sl" then Some(ServerLogger)
      else None
    else if |name| == 3 && name[0] == 'a' then
      if name == "adv" then Some(Advertiser)
      else None
    else if |name| == 2 && name[0] == 'f' then
      if name == "ft" then Some(FloorType)
      else if name == "fv" then Some(FloorValue)
      else None
    else if |name| == 4 && name[0] == 'f' then
      if name == "fskp" then Some(FloorSkippedFlag)
      else if name == "fsrc" then Some(FloorSource)
      else None
    else if |name| == 3 && name[0] == 'f' then
      if name == "fmv" then Some(FloorModelVersion)
      else if name == "frv" then Some(FloorRuleValue)
      else None
    else if |name| == 2 && name[0] == 'd' then
      if name == "di" then Some(DealID)
      else None
    else if |name| == 4 && name[0] == 'a' then
      if name == "atts" then Some(ATTS)
      else None
    else None
  }

  /** Every wire name reads back as its parameter. */
  lemma KeyOfName(k: QueryKey)
    ensures KeyOf(KeyName(k)) == Some(k)
  {
    match k
    case _ =>
  }

  /** Different parameters have different wire names, so no `Set` of the
      query overwrites another parameter. */
  lemma KeyNamesDistinct(a: QueryKey, b: QueryKey)
    ensures KeyName(a) == KeyName(b) <==> a == b
  {
    KeyOfName(a);
    KeyOfName(b);
  }

  /** The separator between endpoint and query. */
  const QueryMark: string := "?"

  /** Whether a tracker's query carries a parameter: the optional ones
      only when the tracker has the value. */
  predicate Carries(t: Tracker, k: QueryKey)
  {
    match k
    case RewardedInventory => t.rewardedInventory == 1
    case AdDuration => t.partnerInfo.adDuration > 0
    case FloorSkippedFlag => t.floorSkippedFlag.Some?
    case FloorModelVersion => |t.floorModelVersion| > 0
    case FloorSource => t.floorSource.Some?
    case FloorValue => t.partnerInfo.floorValue > 0.0
    case FloorRuleValue => t.partnerInfo.floorRuleValue > 0.0
    case ATTS => t.atts.Some?
    case _ => true
  }

  /** The value a query gives a parameter, if it carries one. */
  function Param(q: map<QueryKey, string>, k: QueryKey): Option<string>
  {
    if k in q then Some(q[k]) else None
  }

  /** Every parameter. */
  const AllKeys: set<QueryKey> := {
    PubID, PageURL, Timestamp, IID, ProfileID, VersionID, SlotID, Adunit, RewardedInventory,
    Platform, PubDomain, PartnerID, BidderCode, GrossECPM, NetECPM, BidID, OrigBidID, AdSize,
    AdDuration, Adformat, ServerSide, Advertiser, FloorType, FloorSkippedFlag, FloorModelVersion,
    FloorSource, FloorValue, FloorRuleValue, ServerLogger, DealID, ATTS}

  lemma AllKeysComplete()
    ensures forall k: QueryKey :: k in AllKeys
  {
    forall k: QueryKey
      ensures k in AllKeys
    {
      if k.PubID? {}
    }
  }

  /** The value the tracker code `Set`s for one parameter, if it sets it. */
  function ParamValue(t: Tracker, formatFloat: real -> string, k: QueryKey): (r: Option<string>)
    ensures r.Some? <==> Carries(t, k)
  {
    var p := t.partnerInfo;
    match k
    case PubID => Some(Itoa(t.pubID))
    case PageURL => Some(t.pageURL)
    case Timestamp => Some(Itoa(t.timestamp))
    case IID => Some(t.iid)
    case ProfileID => Some(t.profileID)
    case VersionID => Some(t.versionID)
    case SlotID => Some(t.slotID)
    case Adunit => Some(t.adunit)
    case RewardedInventory => if t.rewardedInventory == 1 then Some(Itoa(t.rewardedInventory)) else None
    case Platform => Some(Itoa(t.platform))
    case PubDomain => Some(t.origin)
    case PartnerID => Some(p.partnerID)
    case BidderCode => Some(p.bidderCode)
    case GrossECPM => Some(formatFloat(p.grossECPM))
    case NetECPM => Some(formatFloat(p.netECPM))
    case BidID => Some(p.bidID)
    case OrigBidID => Some(p.origBidID)
    case AdSize => Some(p.adSize)
    case AdDuration => if p.adDuration > 0 then Some(Itoa(p.adDuration)) else None
    case Adformat => Some(p.adformat)
    case ServerSide => Some(Itoa(p.serverSide))
    case Advertiser => Some(p.advertiser)
    case FloorType => Some(Itoa(t.floorType))
    case FloorSkippedFlag =>
      if t.floorSkippedFlag.Some? then Some(Itoa(t.floorSkippedFlag.value)) else None
    case FloorModelVersion => if |t.floorModelVersion| > 0 then Some(t.floorModelVersion) else None
    case FloorSource => if t.floorSource.Some? then Some(Itoa(t.floorSource.value)) else None
    case FloorValue => if p.floorValue > 0.0 then Some(formatFloat(p.floorValue)) else None
    case FloorRuleValue => if p.floorRuleValue > 0.0 then Some(formatFloat(p.floorRuleValue)) else None
    case ServerLogger => Some("1")
    case DealID => Some(p.dealID)
    case ATTS => if t.atts.Some? then Some(Itoa(Truncate(t.atts.value))) else None
  }

  /** The `url.Values` built from a tracker, keyed by parameter: the code
      sets each parameter at most once, so the query holds exactly the
      parameters it sets, with the value set. */
  function TrackerQuery(t: Tracker, formatFloat: real -> string): (q: map<QueryKey, string>)
    ensures forall k :: k in q <==> Carries(t, k)
    ensures forall k :: k in q ==> q[k] == ParamValue(t, formatFloat, k).value
  {
    AllKeysComplete();
    map k | k in AllKeys && ParamValue(t, formatFloat, k).Some? :: ParamValue(t, formatFloat, k).value
  }

  /** The query gives each parameter exactly the value the tracker sets
      for it, and leaves out the ones it does not set. */
  lemma ParamOfQuery(t: Tracker, formatFloat: real -> string, k: QueryKey)
    ensures Param(TrackerQuery(t, formatFloat), k) == ParamValue(t, formatFloat, k)
  {
  }

  /** The integer a parameter carries, for the parameters written as
      decimal integers. */
  function IntField(t: Tracker, k: QueryKey): Option<int>
  {
    match k
    case PubID => Some(t.pubID)
    case Timestamp => Some(t.timestamp)
    case RewardedInventory => Some(t.rewardedInventory)
    case Platform => Some(t.platform)
    case AdDuration => Some(t.partnerInfo.adDuration)
    case ServerSide => Some(t.partnerInfo.serverSide)
    case FloorType => Some(t.floorType)
    case FloorSkippedFlag => t.floorSkippedFlag
    case FloorSource => t.floorSource
    case _ => None
  }

  /** The integer parameters of a tracker query read back, with Go's
      `strconv.Atoi`, as the integers of the tracker, as long as they fit
      Go's 64-bit `int`. */
  lemma IntegerParamReadsBack(t: Tracker, formatFloat: real -> string, k: QueryKey)
    requires IntField(t, k).Some? && InInt64(IntField(t, k).value)
    ensures var q := TrackerQuery(t, formatFloat);
            k in q ==> Atoi(q[k]) == (IntField(t, k).value, true)
  {
    var q := TrackerQuery(t, formatFloat);
    if k in q {
      var n := IntField(t, k).value;
      assert q[k] == Itoa(n) by {
        match k
        case PubID =>
        case Timestamp =>
        case RewardedInventory =>
        case Platform =>
        case AdDuration =>
        case ServerSide =>
        case FloorType =>
        case FloorSkippedFlag =>
        case FloorSource =>
      }
      ItoaAtoiRoundTrip(n);
    }
  }

  /** `constructTrackerURL`: the parsed endpoint, "?", and the encoded
      query; the empty string when the endpoint does not parse. */
  function ConstructTrackerURL(endpoint: string, t: Tracker, env: UrlEnv): (r: string)
    ensures r == "" <==> env.urlString(endpoint).None?
    ensures env.urlString(endpoint).Some? ==>
              r == env.urlString(endpoint).value + QueryMark + env.encodeQuery(TrackerQuery(t, env.formatFloat))
  {
    match env.urlString(endpoint)
    case None => ""
    case Some(u) => u + QueryMark + env.encodeQuery(TrackerQuery(t, env.formatFloat))
  }
}
