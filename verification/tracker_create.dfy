/** The tracker of one bid (`CreateTracker` and `ExtractDomain` in
    modules/prebid/katana/tracker/create.go): request facts, bid facts,
    the floors reported in the response extension, and the tracker URL. */
module TrackerCreate {
  import opened Base
  import opened Text
  import opened Decimal
  import opened OpenRtb
  import opened DeviceModel
  import opened KatanaModels
  import opened FloorsDetailsMapping
  import opened TrackerUrl

  /** The scheme `ExtractDomain` adds to a bare domain. */
  const HttpScheme: string := "http://"

  /** The URL `ExtractDomain` parses: the advertiser domain, with "http://"
      in front unless it already starts with "http". */
  function DomainURL(raw: string): (r: string)
    ensures HasPrefix(r, "http")
    ensures HasPrefix(raw, "http") ==> r == raw
    ensures !HasPrefix(raw, "http") ==> r == HttpScheme + raw
  {
    if HasPrefix(raw, "http") then raw else HttpScheme + raw
  }

  /** `ExtractDomain`: the host of the advertiser URL; `None` when the URL
      does not parse. */
  function ExtractDomain(raw: string, urlHost: string -> Option<string>): (r: Option<string>)
    ensures HasPrefix(raw, "http") ==> r == urlHost(raw)
    ensures !HasPrefix(raw, "http") ==> r == urlHost(HttpScheme + raw)
  {
    urlHost(DomainURL(raw))
  }

  /** Adding the scheme is done once: a URL `ExtractDomain` already
      completed is parsed as it is, and gives the same host. */
  lemma ExtractDomainSettles(raw: string, urlHost: string -> Option<string>)
    ensures DomainURL(DomainURL(raw)) == DomainURL(raw)
    ensures ExtractDomain(DomainURL(raw), urlHost) == ExtractDomain(raw, urlHost)
    ensures HasPrefix(raw, "http") <==> DomainURL(raw) == raw
  {
    if !HasPrefix(raw, "http") {
      assert |DomainURL(raw)| > |raw|;
    }
  }

  /** `fmt.Sprintf("%dx%d", w, h)`. */
  function FormatAdSize(w: int, h: int): string
  {
    Itoa(w) + "x" + Itoa(h)
  }

  /** Reads an ad size back: the integers before and after the last "x". */
  function ParseAdSize(s: string): Option<(int, int)>
  {
    var i := LastIndexOf(s, 'x');
    if i < 0 then None
    else
      var (w, okW) := Atoi(s[..i]);
      var (h, okH) := Atoi(s[i + 1..]);
      if okW && okH then Some((w, h)) else None
  }

  /** The ad size of a tracker reads back as the bid's width and height. */
  lemma AdSizeRoundTrip(w: int, h: int)
    requires InInt64(w) && InInt64(h)
    ensures ParseAdSize(FormatAdSize(w, h)) == Some((w, h))
  {
    var s := FormatAdSize(w, h);
    ItoaAlphabet(h);
    assert 'x' !in Itoa(h) by {
      forall k | 0 <= k < |Itoa(h)|
        ensures Itoa(h)[k] != 'x'
      {
      }
    }
    var i := LastIndexOf(s, 'x');
    assert s[|Itoa(w)|] == 'x';
    assert s[|Itoa(w)| + 1..] == Itoa(h);
    assert i == |Itoa(w)|;
    assert s[..i] == Itoa(w);
    assert s[i + 1..] == Itoa(h);
    ItoaAtoiRoundTrip(w);
    ItoaAtoiRoundTrip(h);
  }

  /** The `bid.ext.prebid` of a bid, when its extension parses and has one. */
  function BidPrebid(bid: Bid): Option<ExtBidPrebid>
  {
    match bid.ext
    case BadBidExt => None
    case ExtBid(prebid) => prebid
  }

  /** The ad format named by the bid extension; empty when it names none. */
  function BidAdformat(bid: Bid): (r: string)
    ensures r != "" ==> BidPrebid(bid).Some? && r == BidPrebid(bid).value.bidType
    ensures BidPrebid(bid).Some? ==> r == BidPrebid(bid).value.bidType
  {
    match BidPrebid(bid)
    case None => ""
    case Some(p) => p.bidType
  }

  /** The partner a tracker reports: the adapter code when the bid came
      through an alias adapter, the seat otherwise. */
  function PartnerIDOf(bid: Bid, seat: string): (r: string)
    ensures r != seat <==>
              BidPrebid(bid).Some? && BidPrebid(bid).value.adapterCode.Some?
              && |BidPrebid(bid).value.adapterCode.value| != 0 && BidPrebid(bid).value.adapterCode.value != seat
    ensures r != seat ==> r == BidPrebid(bid).value.adapterCode.value
  {
    match BidPrebid(bid)
    case Some(p) =>
      if p.adapterCode.Some? && |p.adapterCode.value| != 0 && seat != p.adapterCode.value
      then p.adapterCode.value else seat
    case None => seat
  }

  /** The video duration a tracker reports: positive, or 0 for none. */
  function AdDurationOf(bid: Bid): (r: int)
    ensures r >= 0
    ensures r > 0 <==> BidPrebid(bid).Some? && BidPrebid(bid).value.videoDuration.Some?
                       && BidPrebid(bid).value.videoDuration.value > 0
    ensures r > 0 ==> r == BidPrebid(bid).value.videoDuration.value
  {
    match BidPrebid(bid)
    case Some(p) =>
      if p.videoDuration.Some? && p.videoDuration.value > 0 then p.videoDuration.value else 0
    case None => 0
  }

  /** The advertiser a tracker reports: the host of the bid's first
      advertiser domain, or empty. */
  function AdvertiserOf(bid: Bid, urlHost: string -> Option<string>): (r: string)
    ensures |bid.adomain| == 0 ==> r == ""
    ensures |bid.adomain| > 0 && ExtractDomain(bid.adomain[0], urlHost).Some? ==>
              r == ExtractDomain(bid.adomain[0], urlHost).value
    ensures |bid.adomain| > 0 && ExtractDomain(bid.adomain[0], urlHost).None? ==> r == ""
  {
    if |bid.adomain| != 0 then
      match ExtractDomain(bid.adomain[0], urlHost)
      case Some(domain) => domain
      case None => ""
    else ""
  }

  /** `CreateTracker`. */
  function CreateTracker(rctx: RequestCtx, bid: Bid, seat: string, currency: string,
                         responseExt: ExtBidResponse, env: UrlEnv): (r: TrackerDetails)
    // The request the tracker belongs to.
    ensures r.tracker.iid == rctx.id && r.tracker.pubID == rctx.publisherID
    ensures r.tracker.pageURL == rctx.pageURL && r.tracker.timestamp == rctx.startTime
    ensures r.tracker.profileID == rctx.profileID && r.tracker.versionID == rctx.versionID
    ensures r.tracker.platform == rctx.deviceCtx.platform && r.tracker.origin == rctx.origin
    ensures r.tracker.atts.Some? ==> rctx.deviceCtx.ext.Some?
    ensures rctx.deviceCtx.ext.Some? ==> r.tracker.atts == rctx.deviceCtx.ext.value.GetAtts()
    // The impression: known impressions name the slot and the rewarded flag.
    ensures bid.impID !in rctx.impCtx ==>
              r.tracker.slotID == "" && r.tracker.adunit == "" && r.tracker.rewardedInventory == 0
    ensures bid.impID in rctx.impCtx ==>
              r.tracker.slotID == rctx.impCtx[bid.impID].tagId && r.tracker.adunit == r.tracker.slotID
              && r.tracker.rewardedInventory == rctx.impCtx[bid.impID].isRewardInventory.GetOr(0)
    // The floors of the response.
    ensures var d := GetFloorsDetails(responseExt);
            && r.tracker.floorModelVersion == d.floorModelVersion && r.tracker.floorType == d.floorType
            && r.tracker.floorSkippedFlag == d.skipFloors && r.tracker.floorSource == d.floorSource
    // The bid.
    ensures var p := r.tracker.partnerInfo;
            && p.partnerID == PartnerIDOf(bid, seat) && p.bidderCode == seat
            && p.grossECPM == bid.price && p.netECPM == bid.price
            && p.bidID == bid.id && p.origBidID == bid.id && p.serverSide == 1
            && p.adSize == FormatAdSize(bid.w, bid.h) && p.adDuration == AdDurationOf(bid)
            && p.adformat == r.bidType && p.advertiser == AdvertiserOf(bid, env.urlHost)
            && p.floorValue == 0.0 && p.floorRuleValue == 0.0
            && (bid.dealID != "" ==> p.dealID == bid.dealID) && (bid.dealID == "" ==> p.dealID == "-1")
    // What is injected with it.
    ensures r.bidType == BidAdformat(bid)
    ensures r.price == bid.price && r.priceModel == VideoPricingModelCPM && r.priceCurrency == currency
    ensures r.trackerURL == ConstructTrackerURL(rctx.trackerEndpoint, r.tracker, env)
  {
    var floors := GetFloorsDetails(responseExt);
    var adformat := BidAdformat(bid);
    var partner := Partner(
      partnerID := PartnerIDOf(bid, seat),
      bidderCode := seat,
      grossECPM := bid.price,
      netECPM := bid.price,
      bidID := bid.id,
      origBidID := bid.id,
      adSize := FormatAdSize(bid.w, bid.h),
      adDuration := AdDurationOf(bid),
      adformat := adformat,
      serverSide := 1,
      advertiser := AdvertiserOf(bid, env.urlHost),
      floorValue := 0.0,
      floorRuleValue := 0.0,
      dealID := if |bid.dealID| > 0 then bid.dealID else "-1");
    var slot := if bid.impID in rctx.impCtx then rctx.impCtx[bid.impID].tagId else "";
    var rewarded :=
      if bid.impID in rctx.impCtx && rctx.impCtx[bid.impID].isRewardInventory.Some?
      then rctx.impCtx[bid.impID].isRewardInventory.value else 0;
    var tracker := Tracker(
      pubID := rctx.publisherID,
      pageURL := rctx.pageURL,
      timestamp := rctx.startTime,
      iid := rctx.id,
      profileID := rctx.profileID,
      versionID := rctx.versionID,
      slotID := slot,
      adunit := slot,
      partnerInfo := partner,
      rewardedInventory := rewarded,
      platform := rctx.deviceCtx.platform,
      origin := rctx.origin,
      atts := if rctx.deviceCtx.ext.Some? then rctx.deviceCtx.ext.value.GetAtts() else None,
      floorSkippedFlag := floors.skipFloors,
      floorModelVersion := floors.floorModelVersion,
      floorSource := floors.floorSource,
      floorType := floors.floorType);
    TrackerDetails(
      tracker := tracker,
      trackerURL := ConstructTrackerURL(rctx.trackerEndpoint, tracker, env),
      bidType := adformat,
      price := bid.price,
      priceModel := VideoPricingModelCPM,
      priceCurrency := currency)
  }

  /** The parameters of a tracker query that name the bid. */
  lemma BidQuery(t: Tracker, formatFloat: real -> string)
    ensures var q := TrackerQuery(t, formatFloat);
            && Param(q, BidID) == Some(t.partnerInfo.bidID) && Param(q, OrigBidID) == Some(t.partnerInfo.origBidID)
            && Param(q, BidderCode) == Some(t.partnerInfo.bidderCode)
  {
    ParamOfQuery(t, formatFloat, BidID);
    ParamOfQuery(t, formatFloat, OrigBidID);
    ParamOfQuery(t, formatFloat, BidderCode);
  }

  /** The ad size and deal parameters of a tracker query. */
  lemma DealQuery(t: Tracker, formatFloat: real -> string)
    ensures var q := TrackerQuery(t, formatFloat);
            && Param(q, AdSize) == Some(t.partnerInfo.adSize)
            && Param(q, DealID) == Some(t.partnerInfo.dealID)
  {
    ParamOfQuery(t, formatFloat, AdSize);
    ParamOfQuery(t, formatFloat, DealID);
  }

  /** Every tracker query marks itself as coming from the server-side
      logger. */
  lemma LoggerQuery(t: Tracker, formatFloat: real -> string)
    ensures Param(TrackerQuery(t, formatFloat), ServerLogger) == Some("1")
  {
    ParamOfQuery(t, formatFloat, ServerLogger);
  }

  /** The server-side and rewarded flags of a tracker query. */
  lemma FlagQuery(t: Tracker, formatFloat: real -> string)
    ensures var q := TrackerQuery(t, formatFloat);
            && Param(q, ServerSide) == Some(Itoa(t.partnerInfo.serverSide))
            && (RewardedInventory in q <==> t.rewardedInventory == 1)
  {
    ParamOfQuery(t, formatFloat, ServerSide);
    ParamOfQuery(t, formatFloat, RewardedInventory);
  }

  /** Zero floor values are left out of a tracker query. */
  lemma ZeroFloorsOmitted(t: Tracker, formatFloat: real -> string)
    ensures var q := TrackerQuery(t, formatFloat);
            && (t.partnerInfo.floorValue == 0.0 ==> FloorValue !in q)
            && (t.partnerInfo.floorRuleValue == 0.0 ==> FloorRuleValue !in q)
  {
    ParamOfQuery(t, formatFloat, FloorValue);
    ParamOfQuery(t, formatFloat, FloorRuleValue);
  }

  /** The URL of a created tracker names the bid: the query carries the
      bid id, the seat as bidder code, the ad size, a server-side flag that
      reads back as 1, a deal id and the server-logger flag. */
  lemma CreatedTrackerNamesBid(rctx: RequestCtx, bid: Bid, seat: string, currency: string,
                               responseExt: ExtBidResponse, env: UrlEnv)
    ensures var r := CreateTracker(rctx, bid, seat, currency, responseExt, env);
            var q := TrackerQuery(r.tracker, env.formatFloat);
            && Param(q, BidID) == Some(bid.id) && Param(q, OrigBidID) == Some(bid.id)
            && Param(q, BidderCode) == Some(seat) && Param(q, AdSize) == Some(FormatAdSize(bid.w, bid.h))
            && Param(q, ServerSide).Some? && Atoi(Param(q, ServerSide).value) == (1, true)
            && Param(q, DealID).Some? && Param(q, DealID).value != "" && Param(q, ServerLogger) == Some("1")
  {
    var r := CreateTracker(rctx, bid, seat, currency, responseExt, env);
    BidQuery(r.tracker, env.formatFloat);
    DealQuery(r.tracker, env.formatFloat);
    LoggerQuery(r.tracker, env.formatFloat);
    FlagQuery(r.tracker, env.formatFloat);
    ItoaAtoiRoundTrip(1);
  }

  /** The URL of a created tracker carries a rewarded flag exactly for
      rewarded impressions, and no floor values. */
  lemma CreatedTrackerFlags(rctx: RequestCtx, bid: Bid, seat: string, currency: string,
                            responseExt: ExtBidResponse, env: UrlEnv)
    ensures var r := CreateTracker(rctx, bid, seat, currency, responseExt, env);
            var q := TrackerQuery(r.tracker, env.formatFloat);
            && (RewardedInventory in q <==>
                  bid.impID in rctx.impCtx && rctx.impCtx[bid.impID].isRewardInventory == Some(1))
            && FloorValue !in q && FloorRuleValue !in q
  {
    var r := CreateTracker(rctx, bid, seat, currency, responseExt, env);
    FlagQuery(r.tracker, env.formatFloat);
    ZeroFloorsOmitted(r.tracker, env.formatFloat);
  }
}
