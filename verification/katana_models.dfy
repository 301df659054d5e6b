/** The records the katana module passes between its hooks
    (modules/prebid/katana/models: request.go, tracker.go, constant.go). */
module KatanaModels {
  import opened Base
  import opened DeviceModel

  /** What the module remembers about one impression. */
  datatype ImpCtx = ImpCtx(
    tagId: string,
    secure: Option<int>,
    isRewardInventory: Option<int>,
    bidFloor: real,
    bidFloorCur: string)

  /** The partner (bidder) part of a tracker. */
  datatype Partner = Partner(
    partnerID: string,
    bidderCode: string,
    grossECPM: real,
    netECPM: real,
    bidID: string,
    origBidID: string,
    adSize: string,
    adDuration: int,
    adformat: string,
    serverSide: int,
    advertiser: string,
    floorValue: real,
    floorRuleValue: real,
    dealID: string)

  /** The impression tracker of one bid. */
  datatype Tracker = Tracker(
    pubID: int,
    pageURL: string,
    timestamp: int,
    iid: string,
    profileID: string,
    versionID: string,
    slotID: string,
    adunit: string,
    partnerInfo: Partner,
    rewardedInventory: int,
    platform: int,
    origin: string,
    atts: Option<real>,
    floorSkippedFlag: Option<int>,
    floorModelVersion: string,
    floorSource: Option<int>,
    floorType: int)

  /** The floor facts reported on every tracker. */
  datatype FloorsDetails = FloorsDetails(
    floorType: int,
    floorModelVersion: string,
    floorProvider: string,
    skipFloors: Option<int>,
    floorFetchStatus: Option<int>,
    floorSource: Option<int>)

  /** The zero `FloorsDetails`. */
  const NoFloorsDetails: FloorsDetails := FloorsDetails(0, "", "", None, None, None)

  /** A tracker with its URL and the pricing injected into video creatives. */
  datatype TrackerDetails = TrackerDetails(
    tracker: Tracker,
    trackerURL: string,
    bidType: string,
    price: real,
    priceModel: string,
    priceCurrency: string)

  const EmptyPartner: Partner := Partner("", "", 0.0, 0.0, "", "", "", 0, "", 0, "", 0.0, 0.0, "")
  const EmptyTracker: Tracker :=
    Tracker(0, "", 0, "", "", "", "", "", EmptyPartner, 0, 0, "", None, None, "", None, 0)

  /** The zero `TrackerDetails`, read for a bid id with no tracker. */
  const EmptyTrackerDetails: TrackerDetails := TrackerDetails(EmptyTracker, "", "", 0.0, "", "")

  /** The per-request context. Fields the modelled code neither reads nor
      writes (SSAI, TestGroup, ATTS) are omitted. */
  datatype RequestCtx = RequestCtx(
    id: string,
    startTime: int,
    publisherIDStr: string,
    publisherID: int,
    profileID: string,
    versionID: string,
    pageURL: string,
    platform: string,
    ua: string,
    deviceCtx: DeviceCtx,
    source: string,
    origin: string,
    country: string,
    ip: string,
    impCtx: map<string, ImpCtx>,
    trackers: map<string, TrackerDetails>,
    trackerEndpoint: string)

  // Ad formats.
  const Banner: string := "banner"
  const Video: string := "video"
  const Native: string := "native"

  // Pricing defaults of the VAST pricing node.
  const VideoPricingModelCPM: string := "CPM"
  const VideoPricingCurrencyUSD: string := "USD"

  /** The macro of `TrackerCallWrap` that receives the tracker URL. */
  const EscapedUrlMacro: string := "${escapedUrl}"

  /** `TrackerCallWrap` = head + macro + tail: a hidden pixel. The head is
      written one style property at a time. */
  const TrackerCallWrapHead: string :=
    "<div style=\"" + "position:absolute;" + "left:0px;" + "top:0px;" + "visibility:hidden;" + "\">" + "<img src=\""
  const TrackerCallWrapTail: string := "\"></div>"
  const TrackerCallWrap: string := TrackerCallWrapHead + EscapedUrlMacro + TrackerCallWrapTail

  const PartnerURLPlaceholder: string := "$PARTNER_URL_PLACEHOLDER"
  const TrackerPlaceholder: string := "$TRACKER_PLACEHOLDER"

  /** `VastWrapper` = head + partner placeholder + middle + tracker
      placeholder + tail: a VAST 3.0 wrapper around an ad-tag URL with one
      impression tracker. The head is written one element at a time. */
  const VastWrapperHead: string :=
    "<VAST version=\"3.0\">" + "<Ad id=\"1\">" + "<Wrapper>" + "<AdSystem>PubMatic Wrapper</AdSystem>"
    + "<VASTAdTagURI>" + "<![CDATA["
  const VastWrapperMiddle: string := "]]></VASTAdTagURI><Impression><![CDATA["
  const VastWrapperTail: string := "]]></Impression></Wrapper></Ad></VAST>"
  const VastWrapper: string :=
    VastWrapperHead + PartnerURLPlaceholder + VastWrapperMiddle + TrackerPlaceholder + VastWrapperTail
}
