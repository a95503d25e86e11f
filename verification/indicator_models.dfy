/** Records exchanged by the external-source adapter and the fetch
    pipeline (backend/models/indicators.py). */
module IndicatorModels {
  import opened Wrappers

  /** One dated sample; `value` is absent when the source has none. */
  datatype IndicatorPoint = IndicatorPoint(date: string, value: Option<real>)

  /** A named series with its metadata and chronologically ordered data. */
  datatype IndicatorSeries = IndicatorSeries(
    seriesId: string,
    title: string,
    units: string,
    frequency: string,
    data: seq<IndicatorPoint>)
}
