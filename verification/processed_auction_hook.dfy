/** The katana processed-auction-request hook
    (modules/prebid/katana/hook_processedauctionrequest.go): it checks the
    module context, reads the publisher id, and fills the request context
    from the bid request. `url.Parse(...).Host` is the parameter `urlHost`
    (`None` for a parse error). */
module ProcessedAuctionHook {
  import opened Base
  import opened Text
  import opened Decimal
  import opened OpenRtb
  import opened DeviceModel
  import opened KatanaModels
  import opened DevicePlatformDetection

  /** The module configuration the hook reads. */
  datatype KatanaConfig = KatanaConfig(profileId: string, trackerUrl: string)

  /** A value of the hook framework's module context: the request context
      stored under "rctx" by an earlier hook, or something else. */
  datatype ModuleValue = RequestCtxValue(rctx: RequestCtx) | OtherValue
  type ModuleContext = map<string, ModuleValue>

  /** The hook result; `moduleContext` is `None` when the hook leaves it
      nil. */
  datatype HookResult = HookResult(reject: bool, debugMessages: seq<string>, moduleContext: Option<ModuleContext>)

  /** How a call of the hook ends: it returns a result, or it panics on a
      nil pointer and returns nothing. */
  datatype HookOutcome = Returned(result: HookResult) | Panicked

  const RctxKey: string := "rctx"
  const MsgModuleCtxNotFound: string := "error: module-ctx not found in handleProcessedAuctionHook()"
  const MsgRequestCtxNotFound: string := "error: request-ctx not found in handleProcessedAuctionHook()"
  const MsgBadPublisherID: string := "error: failed to convert publisher id to int"

  /** `getPublisherId`: the site publisher, else the app publisher, else "". */
  function GetPublisherId(req: BidRequest): (r: string)
    ensures req.site.Some? && req.site.value.publisher.Some? ==> r == req.site.value.publisher.value.id
    ensures !(req.site.Some? && req.site.value.publisher.Some?) && req.app.Some? && req.app.value.publisher.Some? ==>
              r == req.app.value.publisher.value.id
    ensures !(req.site.Some? && req.site.value.publisher.Some?) && !(req.app.Some? && req.app.value.publisher.Some?) ==>
              r == ""
  {
    if req.site.Some? && req.site.value.publisher.Some? then req.site.value.publisher.value.id
    else if req.app.Some? && req.app.value.publisher.Some? then req.app.value.publisher.value.id
    else ""
  }

  /** `getPageURL`: a non-empty app store URL, else a non-empty site page,
      else "". */
  function GetPageURL(req: BidRequest): (r: string)
    ensures r != "" ==>
              (req.app.Some? && r == req.app.value.storeURL)
              || ((req.app.None? || req.app.value.storeURL == "") && req.site.Some? && r == req.site.value.page)
    ensures req.app.Some? && req.app.value.storeURL != "" ==> r == req.app.value.storeURL
    ensures (req.app.None? || req.app.value.storeURL == "") && req.site.Some? ==> r == req.site.value.page
  {
    if req.app.Some? && req.app.value.storeURL != "" then req.app.value.storeURL
    else if req.site.Some? && req.site.value.page != "" then req.site.value.page
    else ""
  }

  /** `getPlatform`: "display" for a site, else "in-app" for an app, else "". */
  function GetPlatform(req: Option<BidRequest>): (r: string)
    ensures r in {"", PlatformDisplay, PlatformApp}
    ensures r == PlatformDisplay <==> req.Some? && req.value.site.Some?
    ensures r == PlatformApp <==> req.Some? && req.value.site.None? && req.value.app.Some?
  {
    if req.None? then ""
    else if req.value.site.Some? then PlatformDisplay
    else if req.value.app.Some? then PlatformApp
    else ""
  }

  /** `getUserAgent`: a non-empty device UA replaces the default. */
  function GetUserAgent(req: Option<BidRequest>, defaultUA: string): (r: string)
    ensures r == defaultUA || (req.Some? && req.value.device.Some? && r == req.value.device.value.ua && r != "")
    ensures req.Some? && req.value.device.Some? && req.value.device.value.ua != "" ==> r == req.value.device.value.ua
  {
    if req.Some? && req.value.device.Some? && |req.value.device.value.ua| > 0 then req.value.device.value.ua
    else defaultUA
  }

  /** `getIP`: a non-empty device IPv4 address, else a non-empty IPv6
      address, else the default. */
  function GetIP(req: Option<BidRequest>, defaultIP: string): (r: string)
    ensures req.Some? && req.value.device.Some? && req.value.device.value.ip != "" ==> r == req.value.device.value.ip
    ensures req.Some? && req.value.device.Some? && req.value.device.value.ip == "" && req.value.device.value.ipv6 != "" ==>
              r == req.value.device.value.ipv6
    ensures !(req.Some? && req.value.device.Some? && (req.value.device.value.ip != "" || req.value.device.value.ipv6 != "")) ==>
              r == defaultIP
  {
    if req.Some? && req.value.device.Some? then
      if |req.value.device.value.ip| > 0 then req.value.device.value.ip
      else if |req.value.device.value.ipv6| > 0 then req.value.device.value.ipv6
      else defaultIP
    else defaultIP
  }

  /** The country of an optional geo, "" without one. */
  function GeoCountry(geo: Option<Geo>): string
  {
    if geo.Some? then geo.value.country else ""
  }

  /** `getCountry`: the device geo country, else the user geo country. */
  function GetCountry(req: BidRequest): (r: string)
    ensures req.device.Some? && GeoCountry(req.device.value.geo) != "" ==> r == GeoCountry(req.device.value.geo)
    ensures (req.device.None? || GeoCountry(req.device.value.geo) == "") && req.user.Some? ==>
              r == GeoCountry(req.user.value.geo)
    ensures (req.device.None? || GeoCountry(req.device.value.geo) == "") && req.user.None? ==> r == ""
  {
    if req.device.Some? && req.device.value.geo.Some? && req.device.value.geo.value.country != "" then
      req.device.value.geo.value.country
    else if req.user.Some? && req.user.value.geo.Some? && req.user.value.geo.value.country != "" then
      req.user.value.geo.value.country
    else ""
  }

  /** `getDomainFromUrl`: the host of the URL, "" when it does not parse. */
  function GetDomainFromUrl(pageUrl: string, urlHost: string -> Option<string>): string
  {
    urlHost(pageUrl).GetOr("")
  }

  /** `getSourceAndOrigin`: the site domain, else the host of the site page,
      else (no site) the app bundle; origin is always the source. */
  function GetSourceAndOrigin(req: BidRequest, urlHost: string -> Option<string>): (r: (string, string))
    ensures r.0 == r.1
    ensures req.site.Some? && req.site.value.domain != "" ==> r.0 == req.site.value.domain
    ensures req.site.Some? && req.site.value.domain == "" && req.site.value.page != "" ==>
              r.0 == GetDomainFromUrl(req.site.value.page, urlHost)
    ensures req.site.Some? && req.site.value.domain == "" && req.site.value.page == "" ==> r.0 == ""
    ensures req.site.None? && req.app.Some? ==> r.0 == req.app.value.bundle
    ensures req.site.None? && req.app.None? ==> r.0 == ""
  {
    var source :=
      if req.site.Some? then
        if |req.site.value.domain| != 0 then req.site.value.domain
        else if |req.site.value.page| != 0 then GetDomainFromUrl(req.site.value.page, urlHost)
        else ""
      else if req.app.Some? then req.app.value.bundle
      else "";
    (source, source)
  }

  /** An imp ext that parses but has no `prebid` object: an absent ext,
      `null`, or an object without the key. `GetPrebid` then returns nil and
      the hook dereferences it. */
  predicate ImpPanics(imp: Imp)
  {
    match imp.ext
    case NotObject(_) => false
    case Object(fields) => "prebid" !in fields
    case _ => true
  }

  /** The context kept for one impression, or `None` where reading
      `is_rewarded_inventory` dereferences a nil `prebid`. The flag is read
      only when the imp ext parses. */
  function ImpCtxOf(imp: Imp): (r: Option<ImpCtx>)
    ensures r.None? <==> ImpPanics(imp)
    ensures r.Some? ==> r.value.tagId == imp.tagID && r.value.secure == imp.secure
    ensures r.Some? ==> r.value.bidFloor == imp.bidFloor && r.value.bidFloorCur == imp.bidFloorCur
    ensures r.Some? && imp.ext.NotObject? ==> r.value.isRewardInventory.None?
    ensures r.Some? && imp.ext.Object? ==> r.value.isRewardInventory == imp.rewarded
  {
    match imp.ext
    case NotObject(_) => Some(ImpCtx(imp.tagID, imp.secure, None, imp.bidFloor, imp.bidFloorCur))
    case Object(fields) =>
      if "prebid" in fields then Some(ImpCtx(imp.tagID, imp.secure, imp.rewarded, imp.bidFloor, imp.bidFloorCur))
      else None
    case _ => None
  }

  /** The imp loop: each imp's context is stored under its id, in order;
      `None` when an imp makes the loop panic. */
  function AddImpCtxs(m: map<string, ImpCtx>, imps: seq<Imp>): (r: Option<map<string, ImpCtx>>)
    decreases |imps|
  {
    if |imps| == 0 then Some(m)
    else
      match ImpCtxOf(imps[0])
      case None => None
      case Some(c) => AddImpCtxs(m[imps[0].id := c], imps[1..])
  }

  /** The imp loop panics exactly when one of the imps lacks `prebid`. */
  lemma {:induction false} AddImpCtxsPanics(m: map<string, ImpCtx>, imps: seq<Imp>)
    ensures AddImpCtxs(m, imps).None? <==> exists k :: 0 <= k < |imps| && ImpPanics(imps[k])
    decreases |imps|
  {
    if |imps| > 0 {
      if ImpPanics(imps[0]) {
      } else {
        AddImpCtxsPanics(m[imps[0].id := ImpCtxOf(imps[0]).value], imps[1..]);
        if exists k :: 0 <= k < |imps| && ImpPanics(imps[k]) {
          var k :| 0 <= k < |imps| && ImpPanics(imps[k]);
          assert k > 0 && imps[1..][k - 1] == imps[k];
        }
        if exists k :: 0 <= k < |imps[1..]| && ImpPanics(imps[1..][k]) {
          var k :| 0 <= k < |imps[1..]| && ImpPanics(imps[1..][k]);
          assert imps[k + 1] == imps[1..][k];
        }
      }
    }
  }

  /** The ids of the imps. */
  function ImpIDs(imps: seq<Imp>): (r: set<string>)
    ensures forall k :: 0 <= k < |imps| ==> imps[k].id in r
    ensures forall id :: id in r ==> exists k :: 0 <= k < |imps| && imps[k].id == id
  {
    if |imps| == 0 then {}
    else
      var rest := ImpIDs(imps[1..]);
      assert forall id :: id in rest ==> exists k :: 0 <= k < |imps| && imps[k].id == id by {
        forall id | id in rest ensures exists k :: 0 <= k < |imps| && imps[k].id == id {
          var j :| 0 <= j < |imps[1..]| && imps[1..][j].id == id;
          assert imps[j + 1].id == id;
        }
      }
      {imps[0].id} + rest
  }

  /** The imp loop keeps the old keys and adds every imp id. */
  lemma {:induction false} AddImpCtxsKeys(m: map<string, ImpCtx>, imps: seq<Imp>)
    ensures AddImpCtxs(m, imps).Some? ==> AddImpCtxs(m, imps).value.Keys == m.Keys + ImpIDs(imps)
    decreases |imps|
  {
    if |imps| > 0 && !ImpPanics(imps[0]) {
      AddImpCtxsKeys(m[imps[0].id := ImpCtxOf(imps[0]).value], imps[1..]);
    }
  }

  /** The context under an id comes from the last imp with that id. */
  lemma {:induction false} AddImpCtxsLastWins(m: map<string, ImpCtx>, imps: seq<Imp>, k: nat)
    requires k < |imps| && forall l :: k < l < |imps| ==> imps[l].id != imps[k].id
    ensures AddImpCtxs(m, imps).Some? ==>
              && imps[k].id in AddImpCtxs(m, imps).value
              && Some(AddImpCtxs(m, imps).value[imps[k].id]) == ImpCtxOf(imps[k])
    decreases |imps|
  {
    if ImpPanics(imps[0]) {
      return;
    }
    var m1 := m[imps[0].id := ImpCtxOf(imps[0]).value];
    var rest := imps[1..];
    if k == 0 {
      forall j | 0 <= j < |rest| ensures rest[j].id != imps[0].id {
        assert rest[j] == imps[j + 1];
      }
      AddImpCtxsUntouched(m1, rest, imps[0].id);
    } else {
      forall l | k - 1 < l < |rest| ensures rest[l].id != rest[k - 1].id {
        assert rest[l] == imps[l + 1];
      }
      AddImpCtxsLastWins(m1, rest, k - 1);
    }
  }

  /** Ids no imp carries keep their old context. */
  lemma {:induction false} AddImpCtxsUntouched(m: map<string, ImpCtx>, imps: seq<Imp>, id: string)
    requires id in m && forall k :: 0 <= k < |imps| ==> imps[k].id != id
    ensures AddImpCtxs(m, imps).Some? ==> id in AddImpCtxs(m, imps).value && AddImpCtxs(m, imps).value[id] == m[id]
    decreases |imps|
  {
    if |imps| > 0 && !ImpPanics(imps[0]) {
      var rest := imps[1..];
      forall k | 0 <= k < |rest| ensures rest[k].id != id {
        assert rest[k] == imps[k + 1];
      }
      AddImpCtxsUntouched(m[imps[0].id := ImpCtxOf(imps[0]).value], rest, id);
    }
  }

  /** The request context after the hook has read the bid request, or
      `None` when the imp loop panics. */
  function EnrichRequestCtx(cfg: KatanaConfig, rctx: RequestCtx, req: BidRequest, urlHost: string -> Option<string>): (r: Option<RequestCtx>)
    ensures r.None? <==> AddImpCtxs(rctx.impCtx, req.imps).None?
    ensures r.Some? ==> r.value.publisherIDStr == GetPublisherId(req) && r.value.publisherID == Atoi(GetPublisherId(req)).0
    ensures r.Some? ==> r.value.profileID == cfg.profileId && r.value.trackerEndpoint == cfg.trackerUrl && r.value.id == req.id
    ensures r.Some? ==> (r.value.source, r.value.origin) == GetSourceAndOrigin(req, urlHost)
    ensures r.Some? ==> r.value.pageURL == GetPageURL(req) && r.value.platform == GetPlatform(Some(req))
    ensures r.Some? ==> r.value.ua == GetUserAgent(Some(req), rctx.ua) && r.value.ip == GetIP(Some(req), rctx.ip)
    ensures r.Some? ==> r.value.country == GetCountry(req)
    ensures r.Some? ==>
              r.value.deviceCtx ==
              PopulateDeviceContext(rctx.deviceCtx.(platform := GetDevicePlatform(r.value.platform, r.value.ua, Some(req))), req.device)
    ensures r.Some? ==> Some(r.value.impCtx) == AddImpCtxs(rctx.impCtx, req.imps)
    ensures r.Some? ==> r.value.startTime == rctx.startTime && r.value.versionID == rctx.versionID && r.value.trackers == rctx.trackers
  {
    var pubIDStr := GetPublisherId(req);
    var (source, origin) := GetSourceAndOrigin(req, urlHost);
    var platform := GetPlatform(Some(req));
    var ua := GetUserAgent(Some(req), rctx.ua);
    var devicePlatform := GetDevicePlatform(platform, ua, Some(req));
    match AddImpCtxs(rctx.impCtx, req.imps)
    case None => None
    case Some(impCtx) =>
      Some(rctx.(publisherIDStr := pubIDStr, publisherID := Atoi(pubIDStr).0,
                 profileID := cfg.profileId, trackerEndpoint := cfg.trackerUrl, id := req.id,
                 source := source, origin := origin, pageURL := GetPageURL(req), platform := platform,
                 ua := ua, ip := GetIP(Some(req), rctx.ip), country := GetCountry(req),
                 deviceCtx := PopulateDeviceContext(rctx.deviceCtx.(platform := devicePlatform), req.device),
                 impCtx := impCtx))
  }

  /** The module context the deferred function writes back. */
  function WithRequestCtx(rctx: RequestCtx): ModuleContext
  {
    map[RctxKey := RequestCtxValue(rctx)]
  }

  /** `handleProcessedAuctionHook`. It panics in the imp loop when an imp
      ext parses without a `prebid` object; the framework's recovery from
      that panic is not part of this model. */
  function HandleProcessedAuctionHook(cfg: KatanaConfig, moduleCtx: ModuleContext, request: Option<BidRequest>,
                                      urlHost: string -> Option<string>): (r: HookOutcome)
    ensures request.None? ==> r == Returned(HookResult(false, [], None))
    ensures request.Some? && |moduleCtx| == 0 ==> r == Returned(HookResult(true, [MsgModuleCtxNotFound], None))
    ensures request.Some? && |moduleCtx| > 0 && !(RctxKey in moduleCtx && moduleCtx[RctxKey].RequestCtxValue?) ==>
              r == Returned(HookResult(true, [MsgRequestCtxNotFound], None))
    ensures request.Some? && RctxKey in moduleCtx && moduleCtx[RctxKey].RequestCtxValue? ==>
              var rctx := moduleCtx[RctxKey].rctx;
              var pubIDStr := GetPublisherId(request.value);
              var enriched := EnrichRequestCtx(cfg, rctx, request.value, urlHost);
              if !Atoi(pubIDStr).1
              then r == Returned(HookResult(true, [MsgBadPublisherID],
                                            Some(WithRequestCtx(rctx.(publisherIDStr := pubIDStr, publisherID := Atoi(pubIDStr).0)))))
              else if enriched.None? then r == Panicked
              else r == Returned(HookResult(false, [], Some(WithRequestCtx(enriched.value))))
  {
    match request
    case None => Returned(HookResult(false, [], None))
    case Some(req) =>
      if |moduleCtx| == 0 then Returned(HookResult(true, [MsgModuleCtxNotFound], None))
      else if !(RctxKey in moduleCtx && moduleCtx[RctxKey].RequestCtxValue?) then
        Returned(HookResult(true, [MsgRequestCtxNotFound], None))
      else
        var rctx := moduleCtx[RctxKey].rctx;
        var pubIDStr := GetPublisherId(req);
        var (pubID, ok) := Atoi(pubIDStr);
        if !ok then Returned(HookResult(true, [MsgBadPublisherID], Some(WithRequestCtx(rctx.(publisherIDStr := pubIDStr, publisherID := pubID)))))
        else
          match EnrichRequestCtx(cfg, rctx, req, urlHost)
          case None => Panicked
          case Some(enriched) => Returned(HookResult(false, [], Some(WithRequestCtx(enriched))))
  }

  /** A request that gets past the publisher check panics exactly when one
      of its imps has an ext that parses without `prebid`. */
  lemma HookPanicsOnImpWithoutPrebid(cfg: KatanaConfig, rctx: RequestCtx, req: BidRequest,
                                     urlHost: string -> Option<string>)
    requires Atoi(GetPublisherId(req)).1
    ensures HandleProcessedAuctionHook(cfg, WithRequestCtx(rctx), Some(req), urlHost).Panicked? <==>
            exists k :: 0 <= k < |req.imps| && ImpPanics(req.imps[k])
  {
    AddImpCtxsPanics(rctx.impCtx, req.imps);
  }

  /** A present request with a request context is rejected exactly when the
      publisher id is not a decimal 64-bit integer; an empty id is
      rejected, and the decimal text of any 64-bit integer is accepted and
      stored as that integer. */
  lemma PublisherIDDecidesRejection(cfg: KatanaConfig, rctx: RequestCtx, req: BidRequest,
                                    urlHost: string -> Option<string>, n: int)
    requires InInt64(n)
    ensures var r := HandleProcessedAuctionHook(cfg, WithRequestCtx(rctx), Some(req), urlHost);
            && (r.Returned? && r.result.reject <==> !Atoi(GetPublisherId(req)).1)
            && (GetPublisherId(req) == "" ==> r.Returned? && r.result.reject)
            && (GetPublisherId(req) == Itoa(n) && r.Returned? ==>
                  !r.result.reject && r.result.moduleContext.Some? && RctxKey in r.result.moduleContext.value
                  && r.result.moduleContext.value[RctxKey].rctx.publisherID == n)
  {
    ItoaAtoiRoundTrip(n);
  }

  /** The request context is written back whenever the hook got past the
      context checks and returns, rejected or not; a panic happens only
      after those checks. */
  lemma RequestCtxWrittenBackAfterChecks(cfg: KatanaConfig, moduleCtx: ModuleContext, req: BidRequest,
                                         urlHost: string -> Option<string>)
    ensures var r := HandleProcessedAuctionHook(cfg, moduleCtx, Some(req), urlHost);
            && (r.Panicked? ==> RctxKey in moduleCtx && moduleCtx[RctxKey].RequestCtxValue?)
            && (r.Returned? ==> (r.result.moduleContext.Some? <==> RctxKey in moduleCtx && moduleCtx[RctxKey].RequestCtxValue?))
  {
  }
}
