/** Input and output records of the risk normaliser (backend/models/risk.py).
    Signals are unvalidated: any real value is accepted. */
module RiskModels {

  datatype RegionRiskInput = RegionRiskInput(
    regionCode: string,
    cpiChange: real,          // year-on-year CPI change, percent
    unemploymentRate: real,   // percent
    bdiChange: real,          // Baltic Dry Index change, percent; negative is bad
    portCongestion: real)     // expected to be a fraction in [0, 1]

  datatype RiskScore = RiskScore(
    regionCode: string,
    overall: real,
    breakdown: map<string, real>)
}
