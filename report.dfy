/** The shape of the device's production report, as the collector reads it.
    The report is decoded by the device client library, which is not part of
    this model; only the fields the collector reads are kept. */
module Report {

  datatype Option<+T> = None | Some(value: T)

  /** The numeric fields of one report section that the collector reads. */
  datatype Field =
    | ActiveCount
    | WhLifetime
    | WhToday
    | WNow
    | RmsCurrent
    | RmsVoltage
    | ReactPwr
    | ApprntPwr
    | PwrFactor

  /** One entry of the report's production or consumption list. Production
      entries are told apart by `sectionType`, consumption entries by
      `measurementType`. Field values are copied through unchanged, so they
      are modelled as integers. */
  datatype Section = Section(
    sectionType: string,
    measurementType: string,
    activeCount: int,
    whLifetime: int,
    whToday: int,
    wNow: int,
    rmsCurrent: int,
    rmsVoltage: int,
    reactPwr: int,
    apprntPwr: int,
    pwrFactor: int)
  {
    /** The value of field `f` of this section. */
    function Get(f: Field): int {
      match f
      case ActiveCount => activeCount
      case WhLifetime => whLifetime
      case WhToday => whToday
      case WNow => wNow
      case RmsCurrent => rmsCurrent
      case RmsVoltage => rmsVoltage
      case ReactPwr => reactPwr
      case ApprntPwr => apprntPwr
      case PwrFactor => pwrFactor
    }
  }

  /** What one fetch of the production endpoint decodes into. */
  datatype ProductionReport = ProductionReport(production: seq<Section>, consumption: seq<Section>)

  /** The outcome of one fetch: a decoded report, or a transport or decode
      error (the collector treats both alike). */
  datatype FetchResult = Fetched(report: ProductionReport) | FetchFailed(message: string)
}
