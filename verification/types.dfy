/** The records of the flood-risk map (types.ts): closed variants for every
    enumerated factor, so an unknown factor kind cannot be constructed. */
module Types {

  /** An optional value; stands for `T | undefined` / `T | null`. */
  datatype Option<+T> = None | Some(value: T)

  /** The seven risk levels, declared in ascending order of severity. */
  datatype RiskLevel = Safe | Low | Medium | High | VeryHigh | Alarm | Critical

  datatype Geography = Mountain | CoastalPlain | Delta | HighGround

  datatype WeatherStatus = Normal | AboveAverage | StormWarning

  datatype Infrastructure = Advanced | Standard | Developing

  /** A month's forecast for one unit. `predictedRainfall` is in millimetres. */
  datatype WeatherForecast = WeatherForecast(
    summary: string,
    peakRainfallDays: string,
    predictedRainfall: int,
    status: WeatherStatus,
    sources: string)

  /** Flood counts over the last 1, 5 and 10 years; meant to be cumulative. */
  datatype History = History(lastYear: int, last5Years: int, last10Years: int, sources: string)

  datatype RiskFactors = RiskFactors(
    history: History,
    geography: Geography,
    weather: WeatherForecast,
    infrastructure: Infrastructure)

  datatype ProvinceRawData = ProvinceRawData(
    id: string,
    name: string,
    riskFactors: RiskFactors,
    riskClarification: Option<string>)

  /** A raw record extended with its derived score and level. */
  datatype Province = Province(
    id: string,
    name: string,
    riskFactors: RiskFactors,
    riskClarification: Option<string>,
    riskLevel: RiskLevel,
    riskScore: int)
  {
    /** The raw record this province was derived from. */
    function Raw(): ProvinceRawData {
      ProvinceRawData(id, name, riskFactors, riskClarification)
    }
  }

  datatype Region = All | North | Central | South
}
