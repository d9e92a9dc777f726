/**
 * The widget records of the dashboard: three kinds of widget, each carrying the
 * `mapping` shape that belongs to its kind.
 */
module Widgets {
  import opened JsValues

  datatype ProviderId = AlphaVantage | Finnhub | Indian

  datatype WidgetType = Card | Table | Line

  datatype FieldFormat = NumberFormat | CurrencyFormat | PercentFormat

  /** Which response fields a widget shows, one shape per widget kind. */
  datatype Mapping =
    | CardMapping(paths: seq<string>, format: FieldFormat)
    | TableMapping(columns: seq<string>)
    | LineMapping(x: string, y: string)

  datatype Widget = Widget(
    id: string,
    name: string,
    title: Option<string>,
    kind: WidgetType,
    provider: ProviderId,
    endpoint: string,
    params: seq<(string, J)>,
    refreshMs: int,
    mapping: Mapping)

  /** The mapping shape a widget kind expects. */
  predicate MappingFits(kind: WidgetType, m: Mapping) {
    match kind
    case Card => m.CardMapping?
    case Table => m.TableMapping?
    case Line => m.LineMapping?
  }

  /** A widget whose mapping shape matches its kind. */
  predicate WellFormed(w: Widget) {
    MappingFits(w.kind, w.mapping)
  }

  /** The `{version: 1, widgets}` document the dashboard exports. */
  datatype DashboardExport = DashboardExport(version: int, widgets: seq<Widget>)
}
