/** The OpenRTB request and response objects the modelled code reads and
    writes (Go packages `openrtb2` and `openrtb_ext`), reduced to the fields
    it touches. JSON extensions are represented by what parsing them
    yields. */
module OpenRtb {
  import opened Base

  /** A JSON value held in an extension object. */
  datatype JsonValue = JString(s: string) | JNumber(n: real) | JOther(raw: string)

  /** A raw `ext` field: absent, the JSON literal `null` (which parses into
      a nil map without error), present but not a JSON object (malformed,
      an array, a string, ...), or an object. */
  datatype JsonExt = NoExt | JsonNull | NotObject(raw: string) | Object(fields: map<string, JsonValue>)

  datatype Geo = Geo(lat: real, lon: real, country: string, region: string, city: string, zip: string)

  /** The zero `openrtb2.Geo`. */
  const EmptyGeo: Geo := Geo(0.0, 0.0, "", "", "", "")

  datatype Device = Device(
    ua: string,
    ip: string,
    ipv6: string,
    os: string,
    deviceType: int,
    ifa: string,
    didMD5: string,
    didSHA1: string,
    dpidMD5: string,
    dpidSHA1: string,
    macMD5: string,
    macSHA1: string,
    geo: Option<Geo>,
    ext: JsonExt)

  datatype UserData = UserData(id: string, name: string)
  datatype Eid = Eid(source: string)

  datatype User = User(
    id: string,
    buyerUID: string,
    yob: int,
    gender: string,
    keywords: string,
    kwArray: Option<seq<string>>,
    data: Option<seq<UserData>>,
    eids: Option<seq<Eid>>,
    geo: Option<Geo>,
    ext: JsonExt)

  datatype Publisher = Publisher(id: string)
  datatype Site = Site(domain: string, page: string, publisher: Option<Publisher>)
  datatype App = App(bundle: string, storeURL: string, publisher: Option<Publisher>)
  datatype Source = Source(tid: string)

  /** An impression. `rewarded` is the `ext.prebid.is_rewarded_inventory`
      value that parsing `ext` yields; it means something only when `ext`
      parses to an object with a `prebid` key. */
  datatype Imp = Imp(
    id: string,
    tagID: string,
    secure: Option<int>,
    bidFloor: real,
    bidFloorCur: string,
    ext: JsonExt,
    rewarded: Option<int>)

  datatype BidRequest = BidRequest(
    id: string,
    site: Option<Site>,
    app: Option<App>,
    device: Option<Device>,
    user: Option<User>,
    source: Option<Source>,
    imps: seq<Imp>)

  /** `bid.ext.prebid` as far as the tracker reads it. */
  datatype ExtBidPrebid = ExtBidPrebid(
    videoDuration: Option<int>,
    adapterCode: Option<string>,
    bidType: string)

  /** `bid.ext`: unparsable, or an `ExtBid` whose `prebid` may be nil. */
  datatype BidExt = BadBidExt | ExtBid(prebid: Option<ExtBidPrebid>)

  datatype Bid = Bid(
    id: string,
    impID: string,
    price: real,
    adm: string,
    burl: string,
    dealID: string,
    w: int,
    h: int,
    adomain: seq<string>,
    ext: BidExt)

  datatype SeatBid = SeatBid(seat: string, bids: seq<Bid>)
  datatype BidResponse = BidResponse(seatBids: seq<SeatBid>, cur: string)
}
