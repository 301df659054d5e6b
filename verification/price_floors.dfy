/** The price-floor documents and account settings shared by the floor
    fetcher and the katana module (Go packages `openrtb_ext` and `config`,
    which are not part of this model beyond these declarations). */
module PriceFloors {
  import opened Base

  /** Per-account fetch settings (`config.AccountFloorFetch`). */
  datatype FetchSpec = FetchSpec(
    url: string,
    enabled: bool,
    timeout: int,        // milliseconds
    maxFileSizeKB: int,
    maxRules: int,
    maxAge: int,         // seconds: the default cache TTL
    period: int)         // seconds between refetches

  /** Per-account floor settings (`config.AccountPriceFloors`). */
  datatype AccountPriceFloors = AccountPriceFloors(
    enabled: bool,
    useDynamicData: bool,
    fetcher: FetchSpec)

  /** One model group of a floor document. `values` stands for the rule map;
      floating-point numbers are modelled as reals. */
  datatype ModelGroup = ModelGroup(
    modelWeight: Option<int>,
    modelVersion: string,
    skipRate: int,
    values: map<string, real>,
    default: real)

  /** The `data` object of a floor document. */
  datatype FloorData = FloorData(
    skipRate: int,
    floorProvider: string,
    modelGroups: seq<ModelGroup>)

  datatype Enforcement = Enforcement(enforcePBS: Option<bool>)

  /** `openrtb_ext.PriceFloorRules`: the fetched document wraps `data`; the
      response extension carries the rest. */
  datatype PriceFloorRules = PriceFloorRules(
    floorProvider: string,
    skipped: Option<bool>,
    data: Option<FloorData>,
    location: string,
    fetchStatus: string,
    enforcement: Option<Enforcement>)

  /** A document that holds only `data`, as the fetcher builds it. */
  function RulesWithData(data: Option<FloorData>): PriceFloorRules
  {
    PriceFloorRules("", None, data, "", "", None)
  }

  // Fetch statuses reported by the fetcher's read path.
  const FetchNone: string := "none"
  const FetchSuccess: string := "success"
  const FetchError: string := "error"
  const FetchInprogress: string := "inprogress"
  const FetchTimeout: string := "timeout"

  // Where the floors applied to an auction came from.
  const NoDataLocation: string := "noData"
  const RequestLocation: string := "request"
  const FetchLocation: string := "fetch"
}
