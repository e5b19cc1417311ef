/** The odds point row shared by the odds fetcher, the de-duplication and the averaging job. */
module OddsPoints {
  import opened Common

  const SportmonksSource: string := "sportmonks"

  /**
   * One bookmaker price. `bookmakerId` is absent for a row whose bookmaker is
   * null or undefined; `line` is absent outside over/under; `tsUtc` is in
   * milliseconds.
   */
  datatype OddsPoint = OddsPoint(
    fixtureId: int,
    bookmakerId: Option<int>,
    market: string,
    selection: string,
    line: Option<real>,
    oddsDecimal: real,
    tsUtc: int,
    source: string)
}
