/**
 * The client-side dashboard store: one ordered collection of widgets (insertion
 * order is display order) and the onboarding flag, changed only through the
 * store's operations. Each operation replaces the whole collection.
 */
module DashboardStore {
  import opened JsValues
  import opened Widgets

  /** What the add-widget flow hands to the store: a widget without an id. */
  datatype NewWidget = NewWidget(
    title: Option<string>,
    name: Option<string>,
    typeTag: string,
    provider: ProviderId,
    endpoint: string,
    params: Option<seq<(string, J)>>,
    refreshMs: Option<int>,
    mapping: Mapping)

  /** An imported document; only its `widgets` member is read. */
  datatype ImportedConfig = ImportedConfig(widgets: Option<seq<Widget>>)

  const UntitledWidget := "Untitled Widget"
  const DefaultRefreshMs := 60000
  const ExportVersion := 1

  /** `a || b` for a string that may be undefined. */
  function OrElse(a: Option<string>, b: string): (r: string)
    ensures a.Some? && a.value != "" ==> r == a.value
    ensures !(a.Some? && a.value != "") ==> r == b
  {
    if a.Some? && a.value != "" then a.value else b
  }

  /** The widget-type tag a new widget is stored under. */
  function KindOf(tag: string): (k: WidgetType)
    ensures k == Card <==> tag == "card"
    ensures k == Table <==> tag == "table"
    ensures k == Line <==> tag != "card" && tag != "table"
  {
    if tag == "card" then Card else if tag == "table" then Table else Line
  }

  /** The widget `addWidget` stores for `w`, created at `nowMs`. */
  function Created(w: NewWidget, nowMs: int): (r: Widget)
    ensures r.id == IntToString(nowMs) && r.id != ""
    ensures w.title.Some? && w.title.value != "" ==> r.title == w.title
    ensures !(w.title.Some? && w.title.value != "") && w.name.Some? && w.name.value != "" ==> r.title == w.name
    ensures !(w.title.Some? && w.title.value != "") && !(w.name.Some? && w.name.value != "") ==>
              r.title == Some(UntitledWidget) && r.name == UntitledWidget
    ensures r.name == (if w.name.Some? && w.name.value != "" then w.name.value else r.title.value)
    ensures r.name != "" && r.title.Some? && r.title.value != ""
    ensures r.params == (if w.params.Some? then w.params.value else [])
    ensures r.refreshMs == (if w.refreshMs.Some? then w.refreshMs.value else DefaultRefreshMs)
    ensures r.kind == KindOf(w.typeTag) && r.mapping == w.mapping
    ensures r.provider == w.provider && r.endpoint == w.endpoint
  {
    var title := OrElse(w.title, OrElse(w.name, UntitledWidget));
    Widget(
      id := IntToString(nowMs),
      name := OrElse(w.name, title),
      title := Some(title),
      kind := KindOf(w.typeTag),
      provider := w.provider,
      endpoint := w.endpoint,
      params := if w.params.Some? then w.params.value else [],
      refreshMs := if w.refreshMs.Some? then w.refreshMs.value else DefaultRefreshMs,
      mapping := w.mapping)
  }

  /** A new widget whose tag is one of the three kinds and whose mapping fits it. */
  predicate NewWellFormed(w: NewWidget) {
    (w.typeTag == "card" || w.typeTag == "table" || w.typeTag == "line")
    && MappingFits(KindOf(w.typeTag), w.mapping)
  }

  /** A well-formed request yields a widget whose mapping matches its kind. */
  lemma CreatedWellFormed(w: NewWidget, nowMs: int)
    requires NewWellFormed(w)
    ensures WellFormed(Created(w, nowMs))
    ensures Created(w, nowMs).kind == Card <==> w.typeTag == "card"
    ensures Created(w, nowMs).kind == Line <==> w.typeTag == "line"
  {
  }

  /** The collection `removeWidget(id)` leaves: every widget except those with that id. */
  function WithoutId(ws: seq<Widget>, id: string): (r: seq<Widget>)
    ensures |r| <= |ws|
    ensures forall k :: 0 <= k < |r| ==> r[k].id != id
    ensures forall x :: multiset(r)[x] == if x.id == id then 0 else multiset(ws)[x]
  {
    if ws == [] then []
    else
      var rest := WithoutId(ws[1..], id);
      assert ws == [ws[0]] + ws[1..];
      if ws[0].id == id then rest else [ws[0]] + rest
  }

  /** Removal keeps the relative order: it works piecewise on a concatenation. */
  lemma {:induction false} WithoutIdConcat(a: seq<Widget>, b: seq<Widget>, id: string)
    ensures WithoutId(a + b, id) == WithoutId(a, id) + WithoutId(b, id)
  {
    if a == [] {
      assert a + b == b;
    } else {
      assert (a + b)[0] == a[0] && (a + b)[1..] == a[1..] + b;
      WithoutIdConcat(a[1..], b, id);
    }
  }

  /** Removing an id nobody has changes nothing. */
  lemma {:induction false} WithoutAbsentId(ws: seq<Widget>, id: string)
    requires forall k :: 0 <= k < |ws| ==> ws[k].id != id
    ensures WithoutId(ws, id) == ws
  {
    if ws != [] {
      WithoutAbsentId(ws[1..], id);
    }
  }

  /** `s` without its element at `i`. */
  function RemoveAt(s: seq<Widget>, i: nat): (r: seq<Widget>)
    requires i < |s|
    ensures |r| == |s| - 1
  {
    s[..i] + s[i + 1..]
  }

  /** The guard under which `reorder(from, to)` does nothing. */
  predicate ReorderIgnored(n: nat, from: int, to: int) {
    from == to || from < 0 || to < 0 || from >= n || to >= n
  }

  /** The collection `reorder(from, to)` leaves: the widget at `from` moved to `to`. */
  function Moved(s: seq<Widget>, from: int, to: int): (r: seq<Widget>)
  {
    if ReorderIgnored(|s|, from, to) then s
    else
      var rest := RemoveAt(s, from);
      rest[..to] + [s[from]] + rest[to..]
  }

  /** An ignored reorder leaves the collection as it was. */
  lemma MovedIgnored(s: seq<Widget>, from: int, to: int)
    requires ReorderIgnored(|s|, from, to)
    ensures Moved(s, from, to) == s
  {
  }

  /**
   * An effective reorder is a permutation that puts the old element at `from`
   * at position `to` and keeps every other element in its relative order.
   */
  lemma MovedPermutes(s: seq<Widget>, from: int, to: int)
    requires !ReorderIgnored(|s|, from, to)
    ensures |Moved(s, from, to)| == |s|
    ensures multiset(Moved(s, from, to)) == multiset(s)
    ensures Moved(s, from, to)[to] == s[from]
    ensures RemoveAt(Moved(s, from, to), to) == RemoveAt(s, from)
  {
    var rest := RemoveAt(s, from);
    var r := Moved(s, from, to);
    assert s == s[..from] + [s[from]] + s[from + 1..];
    assert multiset(s) == multiset(rest) + multiset{s[from]};
    assert rest == rest[..to] + rest[to..];
    assert r[..to] == rest[..to] && r[to + 1..] == rest[to..];
  }

  /** The collection `importConfig(data)` installs. */
  function Imported(data: Option<ImportedConfig>): (r: seq<Widget>)
    ensures data.Some? && data.value.widgets.Some? ==> r == data.value.widgets.value
    ensures data.None? || data.value.widgets.None? ==> r == []
  {
    if data.Some? && data.value.widgets.Some? then data.value.widgets.value else []
  }

  /** An exported document read back in. */
  function FromExport(e: DashboardExport): ImportedConfig {
    ImportedConfig(Some(e.widgets))
  }

  /** Importing what was exported restores the same collection. */
  lemma ImportOfExport(ws: seq<Widget>)
    ensures Imported(Some(FromExport(DashboardExport(ExportVersion, ws)))) == ws
  {
  }

  class Store {
    var widgets: seq<Widget>
    var hasSeenTour: bool

    constructor ()
      ensures widgets == [] && !hasSeenTour
    {
      widgets := [];
      hasSeenTour := false;
    }

    method SetHasSeenTour(v: bool)
      modifies this
      ensures hasSeenTour == v && widgets == old(widgets)
    {
      hasSeenTour := v;
    }

    /** Appends the widget made from `w`; `nowMs` is the clock reading that names it. */
    method AddWidget(w: NewWidget, nowMs: int)
      modifies this
      ensures widgets == old(widgets) + [Created(w, nowMs)]
      ensures |widgets| == |old(widgets)| + 1 && widgets[..|old(widgets)|] == old(widgets)
      ensures hasSeenTour == old(hasSeenTour)
    {
      var widget := Created(w, nowMs);
      widgets := widgets + [widget];
    }

    method RemoveWidget(id: string)
      modifies this
      ensures widgets == WithoutId(old(widgets), id)
      ensures hasSeenTour == old(hasSeenTour)
    {
      widgets := WithoutId(widgets, id);
    }

    /** Copies the collection, splices the widget at `from` out and back in at `to`. */
    method Reorder(from: int, to: int)
      modifies this
      ensures widgets == Moved(old(widgets), from, to)
      ensures ReorderIgnored(|old(widgets)|, from, to) ==> widgets == old(widgets)
      ensures hasSeenTour == old(hasSeenTour)
    {
      var ws := widgets;
      if from == to || from < 0 || to < 0 || from >= |ws| || to >= |ws| {
        return;
      }
      var reordered := ws;
      var item := reordered[from];
      reordered := reordered[..from] + reordered[from + 1..];
      reordered := reordered[..to] + [item] + reordered[to..];
      widgets := reordered;
    }

    method ExportConfig() returns (e: DashboardExport)
      ensures e.version == ExportVersion && e.widgets == widgets
    {
      e := DashboardExport(ExportVersion, widgets);
    }

    method ImportConfig(data: Option<ImportedConfig>)
      modifies this
      ensures widgets == Imported(data)
      ensures hasSeenTour == old(hasSeenTour)
    {
      if data.Some? && data.value.widgets.Some? {
        widgets := data.value.widgets.value;
      } else {
        widgets := [];
      }
    }

    /** The first widget with the given id, if any. */
    method GetWidget(id: string) returns (r: Option<Widget>)
      ensures r.Some? ==> exists k :: 0 <= k < |widgets| && widgets[k] == r.value
                            && r.value.id == id
                            && forall j :: 0 <= j < k ==> widgets[j].id != id
      ensures r.None? <==> forall k :: 0 <= k < |widgets| ==> widgets[k].id != id
    {
      var i := 0;
      while i < |widgets|
        invariant 0 <= i <= |widgets|
        invariant forall j :: 0 <= j < i ==> widgets[j].id != id
      {
        if widgets[i].id == id {
          return Some(widgets[i]);
        }
        i := i + 1;
      }
      return None;
    }

    /** Exporting and importing the result leaves the collection unchanged. */
    method ExportThenImport()
      modifies this
      ensures widgets == old(widgets)
      ensures hasSeenTour == old(hasSeenTour)
    {
      var e := ExportConfig();
      ImportConfig(Some(FromExport(e)));
    }
  }

  /** The scenario of the store's test: a named card added to an empty store. */
  method AddWithDefaultsScenario(nowMs: int) returns (s: Store)
    ensures |s.widgets| == 1
    ensures s.widgets[0].id != "" && s.widgets[0].name == "Test" && s.widgets[0].refreshMs == 1000
    ensures s.widgets[0].kind == Card && s.widgets[0].provider == Finnhub
  {
    s := new Store();
    s.AddWidget(NewWidget(None, Some("Test"), "card", Finnhub, "/quote",
                          Some([("symbol", JStr("AAPL"))]), Some(1000),
                          CardMapping(["c"], CurrencyFormat)), nowMs);
  }

  /** The test's round trip: a line widget exported, the store wiped, the export imported. */
  method ExportImportScenario(nowMs: int) returns (s: Store, e: DashboardExport)
    ensures e.version == 1 && |e.widgets| == 1
    ensures |s.widgets| == 1 && s.widgets[0].name == "Chart" && s.widgets[0].kind == Line
  {
    s := new Store();
    s.AddWidget(NewWidget(None, Some("Chart"), "line", Finnhub, "/candle", Some([]), Some(2000),
                          LineMapping("t", "c")), nowMs);
    e := s.ExportConfig();
    s.ImportConfig(Some(ImportedConfig(Some([]))));
    s.ImportConfig(Some(FromExport(e)));
  }

  /** The test's reorder with an out-of-range source index changes nothing. */
  method IgnoredReorderScenario(s: Store)
    requires |s.widgets| == 2
    modifies s
    ensures s.widgets == old(s.widgets)
  {
    s.Reorder(5, 1);
  }
}
