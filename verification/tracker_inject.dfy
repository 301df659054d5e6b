/** Putting the trackers into the creatives of a response (`InjectTrackers`
    and its helpers in modules/prebid/katana/tracker/inject.go). Editing a
    VAST document is XML work done by the etree library; it enters as a
    function from the trimmed creative, the tracker URL and the pricing to
    the edited creative or an error. */
module TrackerInject {
  import opened Base
  import opened Text
  import opened OpenRtb
  import opened KatanaModels

  /** The `Pricing` node a video creative receives: the price with its
      model and currency, defaults filled in. */
  datatype PricingNode = PricingNode(price: real, model: string, currency: string)

  /** The VAST edit of a creative that is not a URL: it inserts an
      `Impression` with the tracker URL (when non-empty) and the pricing
      node (when given), or fails with "invalid creative format", "VAST Tag
      Not Found", "video creative not in required VAST format" or a write
      error. */
  type VastEdit = (string, string, Option<PricingNode>) -> Result<string, string>

  /** The scheme that marks a video creative as an ad-tag URL. */
  const HTTPProtocol: string := "http"

  const ErrMissingCreative: string := "bid is nil or tracker data is missing"

  /** The error recorded for a bid whose tracker names no injectable format. */
  function ErrInvalidAdformat(adformat: string, bidID: string): string
  {
    "Invalid adformat " + adformat + " for bidid " + bidID
  }

  /** The error recorded for a bid whose video injection failed. */
  function ErrInjectFailed(bidID: string, err: string): string
  {
    "failed to inject tracker for bidid " + bidID + " with error " + err
  }

  /** The pricing model written into a `Pricing` node: "CPM" by default. */
  function PricingModel(model: string): (r: string)
    ensures |r| > 0
    ensures |model| > 0 ==> r == model
  {
    if |model| == 0 then VideoPricingModelCPM else model
  }

  /** The currency written into a `Pricing` node: "USD" by default. */
  function PricingCurrency(currency: string): (r: string)
    ensures r != ""
    ensures currency != "" ==> r == currency
  {
    if currency != "" then currency else VideoPricingCurrencyUSD
  }

  /** The pricing node of a tracker: present exactly for a non-zero price. */
  function PricingOf(td: TrackerDetails): (r: Option<PricingNode>)
    ensures r.Some? <==> td.price != 0.0
    ensures r.Some? ==> r.value.price == td.price && r.value.model != "" && r.value.currency != ""
  {
    if td.price != 0.0
    then Some(PricingNode(td.price, PricingModel(td.priceModel), PricingCurrency(td.priceCurrency)))
    else None
  }

  /** Filling in the defaults twice changes nothing. */
  lemma PricingDefaultsSettle(model: string, currency: string)
    ensures PricingModel(PricingModel(model)) == PricingModel(model)
    ensures PricingCurrency(PricingCurrency(currency)) == PricingCurrency(currency)
    ensures PricingModel(model) == model <==> model != ""
    ensures PricingCurrency(currency) == currency <==> currency != ""
  {
  }

  /** `injectBannerTracker`: the hidden pixel, with the tracker URL in
      place of its macro, appended to the creative. */
  function InjectBannerTracker(td: TrackerDetails, bid: Bid): (r: (string, string))
    ensures r.0 == bid.adm + TrackerCallWrapHead + td.trackerURL + TrackerCallWrapTail
    ensures r.1 == bid.burl
  {
    assert '$' !in TrackerCallWrapHead;
    ReplaceFirstSplice(TrackerCallWrapHead, EscapedUrlMacro, TrackerCallWrapTail, td.trackerURL);
    (bid.adm + ReplaceFirst(TrackerCallWrap, EscapedUrlMacro, td.trackerURL), bid.burl)
  }

  /** The VAST wrapper around an ad-tag URL, with the tracker URL as its
      impression. */
  function WrapAdTag(adTag: string, trackerURL: string): string
  {
    ReplaceAll(ReplaceAll(VastWrapper, PartnerURLPlaceholder, adTag), TrackerPlaceholder, trackerURL)
  }

  /** The wrapper head holds no placeholder and ends in '['. */
  lemma WrapperHeadClean()
    ensures '$' !in VastWrapperHead
    ensures |VastWrapperHead| > 0 && VastWrapperHead[|VastWrapperHead| - 1] == '['
  {
  }

  /** The wrapper middle holds no placeholder, starts with ']' and ends in '['. */
  lemma WrapperMiddleClean()
    ensures '$' !in VastWrapperMiddle
    ensures |VastWrapperMiddle| > 0 && VastWrapperMiddle[0] == ']'
    ensures VastWrapperMiddle[|VastWrapperMiddle| - 1] == '['
  {
  }

  /** The wrapper tail holds no placeholder and starts with ']'. */
  lemma WrapperTailClean()
    ensures '$' !in VastWrapperTail
    ensures |VastWrapperTail| > 0 && VastWrapperTail[0] == ']'
  {
  }

  /** The brackets around the placeholders belong to neither placeholder. */
  lemma BracketsNotInPlaceholders()
    ensures '[' !in PartnerURLPlaceholder && ']' !in PartnerURLPlaceholder
    ensures '[' !in TrackerPlaceholder && ']' !in TrackerPlaceholder
    ensures PartnerURLPlaceholder[0] == '$' && TrackerPlaceholder[0] == '$'
    ensures |TrackerPlaceholder| < |PartnerURLPlaceholder|
  {
  }

  /** The first substitution into a template `H P M T L`: the value lands
      in the first placeholder's place when no other piece can hold that
      placeholder. */
  lemma FirstPlaceholderSplice(H: string, P: string, M: string, T: string, L: string, x: string)
    requires 0 < |T| < |P| && |M| > 0 && |L| > 0
    requires P[0] !in H && P[0] !in M && P[0] !in L && M[|M| - 1] !in P && L[0] !in P
    ensures ReplaceAll(H + P + M + T + L, P, x) == H + x + M + T + L
  {
    var rest := M + (T + L);
    NoFirstCharNoOccurrence(M, P);
    NoFirstCharNoOccurrence(L, P);
    ShorterNoOccurrence(T, P);
    NoOccurrenceAcrossSeam(T, L, P);
    NoOccurrenceAcrossSeam(M, T + L, P);
    assert H + P + M + T + L == H + P + rest;
    ReplaceAllSplice(H, P, rest, x);
    assert H + x + rest == H + x + M + T + L;
  }

  /** The second substitution: the value lands in the second placeholder's
      place when the text before it cannot hold that placeholder and ends
      in a character foreign to it. */
  lemma SecondPlaceholderSplice(H: string, M: string, T: string, L: string, x: string, y: string)
    requires 0 < |T| && |H| > 0 && |M| > 0 && |L| > 0
    requires T[0] !in H && T[0] !in M && T[0] !in L
    requires H[|H| - 1] !in T && M[0] !in T && M[|M| - 1] !in T
    requires !Contains(x, T)
    ensures ReplaceAll(H + x + M + T + L, T, y) == H + x + M + y + L
  {
    NoFirstCharNoOccurrence(H, T);
    NoFirstCharNoOccurrence(M, T);
    NoFirstCharNoOccurrence(L, T);
    var front := H + x + M;
    NoOccurrenceAcrossSeam(x, M, T);
    NoOccurrenceAcrossSeam(H, x + M, T);
    assert H + (x + M) == front;
    assert front[|front| - 1] == M[|M| - 1];
    ReplaceAllSpliceAtSeam(front, T, L, y);
  }

  /** An ad tag without the tracker placeholder lands, unchanged, between
      the wrapper's head and middle, and the tracker URL between its middle
      and tail. */
  lemma WrapAdTagSplice(adTag: string, trackerURL: string)
    requires !Contains(adTag, TrackerPlaceholder)
    ensures WrapAdTag(adTag, trackerURL)
            == VastWrapperHead + adTag + VastWrapperMiddle + trackerURL + VastWrapperTail
  {
    WrapperHeadClean();
    WrapperMiddleClean();
    WrapperTailClean();
    BracketsNotInPlaceholders();
    FirstPlaceholderSplice(VastWrapperHead, PartnerURLPlaceholder, VastWrapperMiddle, TrackerPlaceholder,
                           VastWrapperTail, adTag);
    SecondPlaceholderSplice(VastWrapperHead, VastWrapperMiddle, TrackerPlaceholder, VastWrapperTail,
                            adTag, trackerURL);
  }

  /** `injectVideoCreativeTrackers` with one tracker: the new creative, the
      billing URL (always the bid's) and the error, if any. */
  function InjectVideoCreativeTrackers(bid: Bid, td: TrackerDetails, vastEdit: VastEdit)
    : (r: (string, string, Option<string>))
    ensures r.1 == bid.burl
    ensures bid.adm == "" ==> r.0 == "" && r.2 == Some(ErrMissingCreative)
    ensures bid.adm != "" && HasPrefix(bid.adm, HTTPProtocol) ==>
              r.0 == WrapAdTag(bid.adm, td.trackerURL) && r.2.None?
    ensures bid.adm != "" && !HasPrefix(bid.adm, HTTPProtocol) ==>
              var edited := vastEdit(TrimSpace(bid.adm), td.trackerURL, PricingOf(td));
              && (edited.Ok? ==> r.0 == edited.value && r.2.None?)
              && (edited.Err? ==> r.0 == bid.adm && r.2 == Some(edited.error))
  {
    if bid.adm == "" then ("", bid.burl, Some(ErrMissingCreative))
    else if HasPrefix(bid.adm, HTTPProtocol) then (WrapAdTag(bid.adm, td.trackerURL), bid.burl, None)
    else
      match vastEdit(TrimSpace(bid.adm), td.trackerURL, PricingOf(td))
      case Ok(updated) => (updated, bid.burl, None)
      case Err(e) => (bid.adm, bid.burl, Some(e))
  }

  /** The tracker of a bid: the zero tracker for a bid id without one. */
  function TrackerFor(trackers: map<string, TrackerDetails>, bidID: string): TrackerDetails
  {
    if bidID in trackers then trackers[bidID] else EmptyTrackerDetails
  }

  /** One step of the `InjectTrackers` loop: the bid with its new creative
      and billing URL, and the error message of the step, if any. */
  function InjectBid(trackers: map<string, TrackerDetails>, bid: Bid, vastEdit: VastEdit)
    : (r: (Bid, Option<string>))
    ensures r.0.(adm := bid.adm) == bid
    ensures var td := TrackerFor(trackers, bid.id);
            && (td.bidType == Banner ==>
                  r.0.adm == bid.adm + TrackerCallWrapHead + td.trackerURL + TrackerCallWrapTail && r.1.None?)
            && (td.bidType == Video ==>
                  var v := InjectVideoCreativeTrackers(bid, td, vastEdit);
                  r.0.adm == v.0 && (r.1.Some? <==> v.2.Some?)
                  && (v.2.Some? ==> r.1 == Some(ErrInjectFailed(bid.id, v.2.value))))
            && (td.bidType != Banner && td.bidType != Video ==>
                  r.0 == bid && r.1 == Some(ErrInvalidAdformat(td.bidType, bid.id)))
  {
    var td := TrackerFor(trackers, bid.id);
    if td.bidType == Banner then
      var (adm, burl) := InjectBannerTracker(td, bid);
      (bid.(adm := adm, burl := burl), None)
    else if td.bidType == Video then
      var (adm, burl, err) := InjectVideoCreativeTrackers(bid, td, vastEdit);
      (bid.(adm := adm, burl := burl),
       if err.Some? then Some(ErrInjectFailed(bid.id, err.value)) else None)
    else (bid, Some(ErrInvalidAdformat(td.bidType, bid.id)))
  }

  /** A bid whose tracker is missing is left as it is and reported. */
  lemma MissingTrackerReported(trackers: map<string, TrackerDetails>, bid: Bid, vastEdit: VastEdit)
    requires bid.id !in trackers
    ensures InjectBid(trackers, bid, vastEdit) == (bid, Some(ErrInvalidAdformat("", bid.id)))
  {
    assert EmptyTrackerDetails.bidType == "";
  }

  /** The last error of a sequence of step errors, the one Go's `errs`
      holds after the loop. */
  function LastError(errs: seq<Option<string>>): (r: Option<string>)
  {
    if |errs| == 0 then None
    else if errs[|errs| - 1].Some? then errs[|errs| - 1]
    else LastError(errs[..|errs| - 1])
  }

  /** `LastError` finds nothing exactly when no step failed, and otherwise
      the error of the last step that failed. */
  lemma {:induction false} LastErrorMeaning(errs: seq<Option<string>>)
    ensures LastError(errs).None? <==> forall k :: 0 <= k < |errs| ==> errs[k].None?
    ensures LastError(errs).Some? ==>
              exists k :: 0 <= k < |errs| && errs[k] == LastError(errs)
                          && forall l :: k < l < |errs| ==> errs[l].None?
  {
    if |errs| > 0 && errs[|errs| - 1].None? {
      var init := errs[..|errs| - 1];
      LastErrorMeaning(init);
      if LastError(errs).Some? {
        var k :| 0 <= k < |init| && init[k] == LastError(init) && forall l :: k < l < |init| ==> init[l].None?;
        assert errs[k] == LastError(errs);
      }
      if LastError(errs).None? {
        forall k | 0 <= k < |errs|
          ensures errs[k].None?
        {
          if k < |init| {
            assert errs[k] == init[k];
          }
        }
      }
    }
  }

  /** The last error of a concatenation is the second part's, if it has
      one. */
  lemma {:induction false} LastErrorConcat(a: seq<Option<string>>, b: seq<Option<string>>)
    ensures LastError(a + b) == if LastError(b).Some? then LastError(b) else LastError(a)
    decreases |b|
  {
    if |b| == 0 {
      assert a + b == a;
    } else {
      assert (a + b)[..|a + b| - 1] == a + b[..|b| - 1];
      LastErrorConcat(a, b[..|b| - 1]);
    }
  }

  /** One loop step: the injected bid and the step's error, if any. */
  type Step = Bid -> (Bid, Option<string>)

  /** The step errors of a sequence of bids. */
  function BidErrors(step: Step, bids: seq<Bid>): (r: seq<Option<string>>)
    ensures |r| == |bids|
    ensures forall j :: 0 <= j < |bids| ==> r[j] == step(bids[j]).1
  {
    if |bids| == 0 then [] else [step(bids[0]).1] + BidErrors(step, bids[1..])
  }

  /** The step errors of a sequence of seats, seat by seat. */
  function SeatErrors(step: Step, seats: seq<SeatBid>): seq<Option<string>>
  {
    if |seats| == 0 then [] else BidErrors(step, seats[0].bids) + SeatErrors(step, seats[1..])
  }

  /** The error held after the steps `errs`, starting from `err`. */
  function Latest(err: Option<string>, errs: seq<Option<string>>): Option<string>
  {
    if LastError(errs).Some? then LastError(errs) else err
  }

  /** Starting from `err` and taking `errs1` then `errs2` is starting from
      the error after `errs1` and taking `errs2`. */
  lemma LatestConcat(err: Option<string>, errs1: seq<Option<string>>, errs2: seq<Option<string>>)
    ensures Latest(err, errs1 + errs2) == Latest(Latest(err, errs1), errs2)
  {
    LastErrorConcat(errs1, errs2);
  }

  /** One step, as the loop takes it. */
  lemma LatestStep(err: Option<string>, e: Option<string>)
    ensures Latest(err, [e]) == if e.Some? then e else err
  {
    var one := [e];
    assert one[..|one| - 1] == [];
    assert LastError(one) == if e.Some? then e else LastError([]);
  }

  /** The inner loop over the bids of one seat, carrying the error so far. */
  function InjectBids(step: Step, bids: seq<Bid>, err: Option<string>): (r: (seq<Bid>, Option<string>))
    ensures |r.0| == |bids|
    ensures forall j :: 0 <= j < |bids| ==> r.0[j] == step(bids[j]).0
    decreases |bids|
  {
    if |bids| == 0 then (bids, err)
    else
      var first := step(bids[0]);
      var rest := InjectBids(step, bids[1..], if first.1.Some? then first.1 else err);
      ([first.0] + rest.0, rest.1)
  }

  /** The inner loop ends with the last of the errors so far and of its
      own steps. */
  lemma {:induction false} InjectBidsError(step: Step, bids: seq<Bid>, err: Option<string>)
    ensures InjectBids(step, bids, err).1 == Latest(err, BidErrors(step, bids))
    decreases |bids|
  {
    if |bids| > 0 {
      var e := step(bids[0]).1;
      var tail := BidErrors(step, bids[1..]);
      InjectBidsError(step, bids[1..], if e.Some? then e else err);
      LatestStep(err, e);
      LatestConcat(err, [e], tail);
      assert BidErrors(step, bids) == [e] + tail;
    }
  }

  /** The outer loop over the seats. */
  function InjectSeats(step: Step, seats: seq<SeatBid>, err: Option<string>): (r: (seq<SeatBid>, Option<string>))
    ensures |r.0| == |seats|
    ensures forall i :: 0 <= i < |seats| ==>
              r.0[i] == seats[i].(bids := InjectBids(step, seats[i].bids, None).0)
    decreases |seats|
  {
    if |seats| == 0 then (seats, err)
    else
      var first := InjectBids(step, seats[0].bids, err);
      assert first.0 == InjectBids(step, seats[0].bids, None).0;
      var rest := InjectSeats(step, seats[1..], first.1);
      ([seats[0].(bids := first.0)] + rest.0, rest.1)
  }

  /** The outer loop ends with the last of the errors so far and of all
      its bids' steps. */
  lemma {:induction false} InjectSeatsError(step: Step, seats: seq<SeatBid>, err: Option<string>)
    ensures InjectSeats(step, seats, err).1 == Latest(err, SeatErrors(step, seats))
    decreases |seats|
  {
    if |seats| > 0 {
      var errs0 := BidErrors(step, seats[0].bids);
      var e := InjectBids(step, seats[0].bids, err).1;
      InjectBidsError(step, seats[0].bids, err);
      var tail := SeatErrors(step, seats[1..]);
      InjectSeatsError(step, seats[1..], e);
      LatestConcat(err, errs0, tail);
    }
  }

  /** `InjectTrackers`: every bid of every seat gets its tracker; the error
      returned is that of the last bid that failed, if any. */
  function InjectTrackers(trackers: map<string, TrackerDetails>, response: Option<BidResponse>,
                          vastEdit: VastEdit): (r: (Option<BidResponse>, Option<string>))
    ensures response.None? || |response.value.seatBids| == 0 ==> r == (response, None)
    ensures response.Some? ==> r.0.Some? && r.0.value.cur == response.value.cur
    ensures response.Some? ==> |r.0.value.seatBids| == |response.value.seatBids|
    ensures response.Some? ==> forall i :: 0 <= i < |response.value.seatBids| ==>
              var seat := response.value.seatBids[i];
              && r.0.value.seatBids[i].seat == seat.seat
              && |r.0.value.seatBids[i].bids| == |seat.bids|
              && forall j :: 0 <= j < |seat.bids| ==>
                   r.0.value.seatBids[i].bids[j] == InjectBid(trackers, seat.bids[j], vastEdit).0
    ensures response.Some? ==>
              r.1 == LastError(SeatErrors(b => InjectBid(trackers, b, vastEdit), response.value.seatBids))
  {
    match response
    case None => (None, None)
    case Some(resp) =>
      if |resp.seatBids| == 0 then (response, None)
      else
        var step: Step := b => InjectBid(trackers, b, vastEdit);
        var injected := InjectSeats(step, resp.seatBids, None);
        InjectSeatsError(step, resp.seatBids, None);
        (Some(resp.(seatBids := injected.0)), injected.1)
  }

  /** The response comes back without an error exactly when every bid had
      a banner or video tracker and no video injection failed. */
  lemma InjectTrackersSucceeds(trackers: map<string, TrackerDetails>, response: BidResponse,
                               vastEdit: VastEdit)
    ensures var errs := SeatErrors(b => InjectBid(trackers, b, vastEdit), response.seatBids);
            InjectTrackers(trackers, Some(response), vastEdit).1.None? <==>
              forall k :: 0 <= k < |errs| ==> errs[k].None?
  {
    LastErrorMeaning(SeatErrors(b => InjectBid(trackers, b, vastEdit), response.seatBids));
  }
}
