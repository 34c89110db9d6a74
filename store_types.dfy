/** The shapes the store is built from: a power sample, the page and curve
    enumerations, and the action envelope that every reducer receives. */
module StoreTypes {

  /** One reading of real power: when (epoch milliseconds) and how much (watts). */
  datatype Sample = Sample(timestamp: int, value: real)

  /** The pages the application navigates between. */
  datatype Page = Home | Comparison | RechartDemo | RevisedCharts

  /** The interpolation hint applied by the renderers. */
  datatype Curve = Basis | Monotone | Natural

  /** What an action carries. The source types the payload per action kind;
      `Absent` stands for a null or undefined payload. */
  datatype Payload =
    | SampleBatch(batch: seq<Sample>)
    | Absent
    | Seconds(seconds: int)
    | PageName(page: Page)
    | CurveName(curve: Curve)

  /** Every action carries a string type tag and a payload. */
  datatype Action = Action(kind: string, payload: Payload)
}
