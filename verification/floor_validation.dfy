/** What a fetch attempt yields and how it is judged: the size check and
    JSON parse of `fetchAndValidate`, the structural checks of
    `validateRules`, and the cache TTL choice of `worker`
    (floors/fetcher.go). */
module FloorValidation {
  import opened Base
  import opened PriceFloors

  /** `math.MaxInt32`, the upper sanity bound on a fetched max-age. */
  const MaxInt32: int := 0x7FFF_FFFF

  /** The outcome of parsing a response body into `data`: malformed JSON, or
      a parse that may leave `data` nil (the body `null`). */
  datatype ParsedBody = Malformed | Parsed(data: Option<FloorData>)

  /** What the HTTP fetch returns: a transport, status or read failure, or a
      body of `size` bytes with the max-age header value (0 when absent). */
  datatype HttpOutcome =
    | TransportFailure
    | Response(size: nat, body: ParsedBody, maxAge: int)

  /** The failures of `validateRules`, in the order they are checked. */
  datatype ValidationError =
    | EmptyData
    | NoModelGroups
    | SkipRateOutOfRange
    | InvalidRuleCount
    | InvalidModelWeight
    | GroupSkipRateOutOfRange
    | NegativeDefault
  {
    /** The error text the source reports. Three of them say "less than
        100" while the checks accept 100 itself; the rule count text says
        "less than MaxRules" while MaxRules passes, and the default text
        says "greater than 0" while 0 passes. */
    function Message(): string
    {
      match this
      case EmptyData => "empty data in floor JSON"
      case NoModelGroups => "no model groups found in price floor data"
      case SkipRateOutOfRange => "skip rate should be greater than or equal to 0 and less than 100"
      case InvalidRuleCount => "invalid number of floor rules, floor rules should be greater than zero and less than MaxRules specified in account config"
      case InvalidModelWeight => "modelGroup[].modelWeight should be greater than or equal to 1 and less than 100"
      case GroupSkipRateOutOfRange => "model group skip rate should be greater than or equal to 0 and less than 100"
      case NegativeDefault => "modelGroup.Default should be greater than 0"
    }
  }

  /** The declarative acceptance condition for one model group. */
  predicate GroupAcceptable(spec: FetchSpec, g: ModelGroup)
  {
    && 1 <= |g.values| <= spec.maxRules
    && (g.modelWeight.Some? ==> 1 <= g.modelWeight.value <= 100)
    && 0 <= g.skipRate <= 100
    && g.default >= 0.0
  }

  /** The declarative acceptance condition for a whole document. */
  predicate Acceptable(spec: FetchSpec, rules: PriceFloorRules)
  {
    && rules.data.Some?
    && |rules.data.value.modelGroups| > 0
    && 0 <= rules.data.value.skipRate <= 100
    && forall k :: 0 <= k < |rules.data.value.modelGroups| ==> GroupAcceptable(spec, rules.data.value.modelGroups[k])
  }

  /** The checks on one model group, in source order. */
  function CheckGroup(spec: FetchSpec, g: ModelGroup): (r: Option<ValidationError>)
    ensures r.None? <==> GroupAcceptable(spec, g)
    ensures !(1 <= |g.values| <= spec.maxRules) ==> r == Some(InvalidRuleCount)
    ensures r == Some(InvalidModelWeight) ==> 1 <= |g.values| <= spec.maxRules
    ensures r == Some(GroupSkipRateOutOfRange) ==>
              1 <= |g.values| <= spec.maxRules && (g.modelWeight.None? || 1 <= g.modelWeight.value <= 100)
    ensures r == Some(NegativeDefault) ==>
              1 <= |g.values| <= spec.maxRules && (g.modelWeight.None? || 1 <= g.modelWeight.value <= 100)
              && 0 <= g.skipRate <= 100
    ensures 1 <= |g.values| <= spec.maxRules && g.modelWeight.Some? && !(1 <= g.modelWeight.value <= 100) ==>
              r == Some(InvalidModelWeight)
    ensures (1 <= |g.values| <= spec.maxRules && (g.modelWeight.None? || 1 <= g.modelWeight.value <= 100)
             && !(0 <= g.skipRate <= 100)) ==> r == Some(GroupSkipRateOutOfRange)
    ensures (1 <= |g.values| <= spec.maxRules && (g.modelWeight.None? || 1 <= g.modelWeight.value <= 100)
             && 0 <= g.skipRate <= 100 && g.default < 0.0) ==> r == Some(NegativeDefault)
    ensures r.Some? ==> r.value in {InvalidRuleCount, InvalidModelWeight, GroupSkipRateOutOfRange, NegativeDefault}
  {
    if |g.values| == 0 || |g.values| > spec.maxRules then Some(InvalidRuleCount)
    else if g.modelWeight.Some? && (g.modelWeight.value < 1 || g.modelWeight.value > 100) then Some(InvalidModelWeight)
    else if g.skipRate < 0 || g.skipRate > 100 then Some(GroupSkipRateOutOfRange)
    else if g.default < 0.0 then Some(NegativeDefault)
    else None
  }

  /** Group `k` is the first one that fails. */
  predicate FirstFailing(spec: FetchSpec, groups: seq<ModelGroup>, k: int)
  {
    && 0 <= k < |groups|
    && !GroupAcceptable(spec, groups[k])
    && forall l :: 0 <= l < k ==> GroupAcceptable(spec, groups[l])
  }

  /** The loop over model groups: the first failing group decides. */
  function CheckGroups(spec: FetchSpec, groups: seq<ModelGroup>): (r: Option<ValidationError>)
    ensures r.None? <==> forall k :: 0 <= k < |groups| ==> GroupAcceptable(spec, groups[k])
    ensures forall k :: FirstFailing(spec, groups, k) ==> r == CheckGroup(spec, groups[k])
  {
    if |groups| == 0 then None
    else
      match CheckGroup(spec, groups[0])
      case Some(e) => Some(e)
      case None => CheckGroups(spec, groups[1..])
  }

  /** `validateRules`: `None` is Go's nil error. */
  function ValidateRules(spec: FetchSpec, rules: PriceFloorRules): (r: Option<ValidationError>)
    ensures r.None? <==> Acceptable(spec, rules)
    ensures rules.data.None? ==> r == Some(EmptyData)
    ensures rules.data.Some? && |rules.data.value.modelGroups| == 0 ==> r == Some(NoModelGroups)
    ensures rules.data.Some? && |rules.data.value.modelGroups| > 0 && !(0 <= rules.data.value.skipRate <= 100) ==>
              r == Some(SkipRateOutOfRange)
    ensures rules.data.Some? && |rules.data.value.modelGroups| > 0 && 0 <= rules.data.value.skipRate <= 100 ==>
              r == CheckGroups(spec, rules.data.value.modelGroups)
  {
    match rules.data
    case None => Some(EmptyData)
    case Some(data) =>
      if |data.modelGroups| == 0 then Some(NoModelGroups)
      else if data.skipRate < 0 || data.skipRate > 100 then Some(SkipRateOutOfRange)
      else CheckGroups(spec, data.modelGroups)
  }

  /** The response-size cap of `fetchAndValidate`. */
  predicate WithinSizeCap(spec: FetchSpec, size: nat)
  {
    size <= spec.maxFileSizeKB * 1024
  }

  /** `fetchAndValidate`: the validated document and the fetched max-age, or
      nothing and 0. A document comes back exactly when the fetch succeeded,
      the body is within the size cap, it parses, and it passes validation. */
  function FetchAndValidate(spec: FetchSpec, outcome: HttpOutcome): (r: (Option<PriceFloorRules>, int))
    ensures r.0.Some? <==>
              && outcome.Response?
              && WithinSizeCap(spec, outcome.size)
              && outcome.body.Parsed?
              && Acceptable(spec, RulesWithData(outcome.body.data))
    ensures r.0.Some? ==> r.0.value == RulesWithData(outcome.body.data) && r.1 == outcome.maxAge
    ensures r.0.None? ==> r.1 == 0
  {
    match outcome
    case TransportFailure => (None, 0)
    case Response(size, body, maxAge) =>
      if size > spec.maxFileSizeKB * 1024 then (None, 0)
      else
        match body
        case Malformed => (None, 0)
        case Parsed(data) =>
          var rules := RulesWithData(data);
          if ValidateRules(spec, rules).Some? then (None, 0) else (Some(rules), maxAge)
  }

  /** A fetched max-age the worker trusts: non-zero, longer than the refetch
      period and below `math.MaxInt32`. */
  predicate UsableMaxAge(spec: FetchSpec, fetchedMaxAge: int)
  {
    fetchedMaxAge != 0 && fetchedMaxAge > spec.period && fetchedMaxAge < MaxInt32
  }

  /** The cache TTL chosen by `worker`. */
  function CacheTtl(spec: FetchSpec, fetchedMaxAge: int): (ttl: int)
    ensures UsableMaxAge(spec, fetchedMaxAge) ==> ttl == fetchedMaxAge
    ensures !UsableMaxAge(spec, fetchedMaxAge) ==> ttl == spec.maxAge
  {
    if fetchedMaxAge != 0 && fetchedMaxAge > spec.period && fetchedMaxAge < MaxInt32
    then fetchedMaxAge
    else spec.maxAge
  }

  /** The TTL is always either the account default or a header value
      strictly between the period and `math.MaxInt32`. */
  lemma CacheTtlRange(spec: FetchSpec, fetchedMaxAge: int)
    ensures var ttl := CacheTtl(spec, fetchedMaxAge);
            ttl == spec.maxAge || (spec.period < ttl < MaxInt32 && ttl == fetchedMaxAge)
  {
  }

  /** A model group with exactly `maxRules` rules passes and one with
      `maxRules + 1` fails; a weight of 0 or 101 fails, 1 and 100 pass; a
      skip rate of exactly 100 passes although the error text says "less
      than 100", and a default of exactly 0 passes although its text says
      "greater than 0". */
  lemma ValidationBoundaries(spec: FetchSpec, g: ModelGroup)
    requires 0 <= g.skipRate <= 100 && g.default >= 0.0
    requires g.modelWeight.None? || 1 <= g.modelWeight.value <= 100
    ensures |g.values| == spec.maxRules >= 1 ==> CheckGroup(spec, g).None?
    ensures |g.values| == spec.maxRules + 1 ==> CheckGroup(spec, g) == Some(InvalidRuleCount)
    ensures 1 <= |g.values| <= spec.maxRules ==>
              && CheckGroup(spec, g.(modelWeight := Some(0))) == Some(InvalidModelWeight)
              && CheckGroup(spec, g.(modelWeight := Some(101))) == Some(InvalidModelWeight)
              && CheckGroup(spec, g.(modelWeight := Some(1))).None?
              && CheckGroup(spec, g.(modelWeight := Some(100))).None?
              && CheckGroup(spec, g.(skipRate := 100)).None?
              && CheckGroup(spec, g.(default := 0.0)).None?
  {
  }

  /** The document skip rate check of `validateRules` accepts 100 itself,
      although its message says "less than 100"; 101 is the first value it
      rejects. */
  lemma DocumentSkipRateBoundary(spec: FetchSpec, data: FloorData, rules: PriceFloorRules)
    requires |data.modelGroups| > 0
    requires forall k :: 0 <= k < |data.modelGroups| ==> GroupAcceptable(spec, data.modelGroups[k])
    ensures ValidateRules(spec, rules.(data := Some(data.(skipRate := 100)))).None?
    ensures ValidateRules(spec, rules.(data := Some(data.(skipRate := 101)))) == Some(SkipRateOutOfRange)
  {
  }
}
