/**
 * The shape of the rows the application stores and shows. Identifiers are
 * abstract numbers (the database generates UUIDs); nullable columns are
 * `Option`s; timestamps are abstract instants filled in by the database.
 */
module Schema {
  import opened Wrappers
  import opened Query

  datatype Crop = Crop(
    id: nat, name: string, season: string, soilType: string, waterRequirement: string,
    expectedYield: Option<real>, profitEstimate: Option<real>)

  datatype Advisory = Advisory(
    id: nat, farmerId: Option<string>, title: string, content: string, category: string,
    severity: string, timestamp: Stamp, source: Option<string>)

  datatype Resource = Resource(
    id: nat, farmerId: Option<string>, resourceType: string, used: real, optimal: real,
    unit: string, month: string, year: int)

  datatype ChatMessage = ChatMessage(
    id: nat, farmerId: Option<string>, role: string, content: string, timestamp: Stamp,
    language: string)

  datatype PestDisease = PestDisease(
    id: nat, name: string, kind: string, cropAffected: string, symptoms: seq<string>,
    severity: string, treatment: string, prevention: Option<string>)

  datatype WeatherData = WeatherData(
    id: nat, location: string, temperature: real, humidity: Option<real>, rainfall: Option<real>,
    windSpeed: Option<real>, condition: string, advisory: Option<string>, timestamp: Stamp)

  datatype SoilAnalysisRecord = SoilAnalysisRecord(
    id: nat, farmerId: Option<string>, soilType: string, nitrogen: Option<real>,
    phosphorus: Option<real>, potassium: Option<real>, ph: Option<real>,
    organicMatter: Option<real>, recommendations: Option<string>, createdAt: Stamp)

  /** Sort keys of the timestamped tables. */
  function AdvisoryStamp(a: Advisory): Stamp { a.timestamp }
  function ChatStamp(m: ChatMessage): Stamp { m.timestamp }
  function WeatherStamp(w: WeatherData): Stamp { w.timestamp }
}
