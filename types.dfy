/** The records the core passes around (types.ts). */
module Types {
  import opened Wrappers

  /** Who wrote a chat message: the union `'user' | 'model'`. */
  datatype Role = User | Model

  /** One message of the chat transcript. */
  datatype ChatMessage = ChatMessage(role: Role, text: string)

  /** A catalog entry. The icon component is presentation and is not part of
      this model. */
  datatype Disease = Disease(id: string, name: string, description: string, color: string, accentColor: string)

  /** The union `'Low' | 'Medium' | 'High' | 'Very High'`. */
  datatype RiskLevel = Low | Medium | High | VeryHigh

  /** The wire spelling of a risk level. */
  function RiskLevelName(level: RiskLevel): string {
    match level
    case Low => "Low"
    case Medium => "Medium"
    case High => "High"
    case VeryHigh => "Very High"
  }

  /** A point of the chart. `cases` and `predicted` are declared as numbers,
      but the service stores `null` in them for an omitted value, so `None`
      stands for `null`. */
  datatype ChartPoint = ChartPoint(name: string, cases: Option<int>, predicted: Option<int>)

  /** What a prediction request yields. */
  datatype PredictionResult = PredictionResult(
    insights: string,
    riskLevel: RiskLevel,
    recommendations: seq<string>,
    chartData: seq<ChartPoint>)
}
