/**
 * The dashboard store (src/lib/store.js): an ordered list of widgets and a theme.  Every
 * action computes the next state from the previous one, so each is a function on `State`.
 * A widget is a JavaScript object; it is modelled as a map from property name to value,
 * so that the spreads `{...widget, id, position}` and `{...w, ...updates}` are map unions.
 */
module DashboardStore {
  import opened Text
  import opened Sequences

  datatype Position = Position(x: int, y: int, w: int, h: int)

  /** A property value of a widget object. */
  datatype Value =
    | Str(s: string)
    | Number(n: real)
    | Flag(b: bool)
    | Layout(p: Position)
    | Object(fields: map<string, Value>)

  type Widget = map<string, Value>

  datatype State = State(widgets: seq<Widget>, theme: string)

  const Light := "light"
  const Dark := "dark"
  const DefaultPosition := Position(0, 0, 6, 4)

  /** `w.id === id`. */
  predicate HasId(w: Widget, id: string)
  {
    "id" in w && w["id"] == Str(id)
  }

  /** The id `addWidget` gives a widget created at millisecond `now` (`widget-${Date.now()}`). */
  function WidgetId(now: nat): string
  {
    "widget-" + NatToString(now)
  }

  /** The persisted state's starting value: no widgets, light theme. */
  function Initial(): (s: State)
    ensures s.widgets == [] && s.theme == Light
  {
    State([], Light)
  }

  /** `addWidget(widget)` at time `now`. */
  function AddWidget(s: State, widget: Widget, now: nat): (r: State)
    ensures |r.widgets| == |s.widgets| + 1
    ensures r.widgets[..|s.widgets|] == s.widgets
    ensures r.theme == s.theme
    ensures var w := r.widgets[|s.widgets|];
      && HasId(w, WidgetId(now))
      && "position" in w && w["position"] == Layout(DefaultPosition)
      && w.Keys == widget.Keys + {"id", "position"}
      && (forall k :: k in widget && k != "id" && k != "position" ==> w[k] == widget[k])
  {
    var created := widget + map["id" := Str(WidgetId(now)), "position" := Layout(DefaultPosition)];
    State(s.widgets + [created], s.theme)
  }

  /** Ids made at different milliseconds differ; two adds in the same millisecond share one. */
  lemma WidgetIdsDistinct(t1: nat, t2: nat)
    ensures WidgetId(t1) == WidgetId(t2) <==> t1 == t2
  {
    if WidgetId(t1) == WidgetId(t2) {
      var p := "widget-";
      assert NatToString(t1) == WidgetId(t1)[|p|..];
      assert NatToString(t2) == WidgetId(t2)[|p|..];
      NatToStringInjective(t1, t2);
    }
  }

  /** `widgets.filter(w => w.id !== id)`. */
  function RemoveWidget(s: State, id: string): (r: State)
    ensures r.theme == s.theme
    ensures forall w :: w in r.widgets ==> w in s.widgets && !HasId(w, id)
  {
    State(Filter(s.widgets, w => !HasId(w, id)), s.theme)
  }

  /** `removeWidget` keeps exactly the other widgets, each as often as it occurred, in their
      original order, and the theme. */
  lemma RemoveWidgetSpec(s: State, id: string)
    ensures var r := RemoveWidget(s, id);
      && (forall w :: w in r.widgets <==> w in s.widgets && !HasId(w, id))
      && (forall w :: multiset(r.widgets)[w] == if HasId(w, id) then 0 else multiset(s.widgets)[w])
      && Subsequence(r.widgets, s.widgets)
      && r.theme == s.theme
  {
    FilterIsSubsequence(s.widgets, w => !HasId(w, id));
  }

  /** Removing an id no widget carries changes nothing. */
  lemma RemoveAbsentId(s: State, id: string)
    requires forall i :: 0 <= i < |s.widgets| ==> !HasId(s.widgets[i], id)
    ensures RemoveWidget(s, id) == s
  {
    FilterKeepsAll(s.widgets, w => !HasId(w, id));
  }

  /** `widgets.map(w => w.id === id ? {...w, ...updates} : w)`. */
  function UpdateWidget(s: State, id: string, updates: map<string, Value>): (r: State)
    ensures |r.widgets| == |s.widgets| && r.theme == s.theme
    ensures forall i :: 0 <= i < |s.widgets| && !HasId(s.widgets[i], id) ==> r.widgets[i] == s.widgets[i]
    ensures forall i :: 0 <= i < |s.widgets| && HasId(s.widgets[i], id) ==>
      && r.widgets[i].Keys == s.widgets[i].Keys + updates.Keys
      && (forall k :: k in updates ==> r.widgets[i][k] == updates[k])
      && (forall k :: k in s.widgets[i] && k !in updates ==> r.widgets[i][k] == s.widgets[i][k])
  {
    State(seq(|s.widgets|, i requires 0 <= i < |s.widgets| =>
            if HasId(s.widgets[i], id) then s.widgets[i] + updates else s.widgets[i]),
          s.theme)
  }

  /** Applying the same update twice is the same as applying it once. */
  lemma UpdateWidgetIdempotent(s: State, id: string, updates: map<string, Value>)
    ensures UpdateWidget(UpdateWidget(s, id, updates), id, updates) == UpdateWidget(s, id, updates)
  {
    var once := UpdateWidget(s, id, updates);
    var twice := UpdateWidget(once, id, updates);
    forall i | 0 <= i < |s.widgets| ensures twice.widgets[i] == once.widgets[i] {
      if HasId(s.widgets[i], id) && HasId(once.widgets[i], id) {
        assert (s.widgets[i] + updates) + updates == s.widgets[i] + updates;
      }
    }
  }

  /** `widgets.map(w => w.id === id ? {...w, position} : w)`: only the `position` of the
      matching widgets changes. */
  function UpdateWidgetPosition(s: State, id: string, position: Position): (r: State)
    ensures |r.widgets| == |s.widgets| && r.theme == s.theme
    ensures forall i :: 0 <= i < |s.widgets| && !HasId(s.widgets[i], id) ==> r.widgets[i] == s.widgets[i]
    ensures forall i :: 0 <= i < |s.widgets| && HasId(s.widgets[i], id) ==>
      && r.widgets[i].Keys == s.widgets[i].Keys + {"position"}
      && r.widgets[i]["position"] == Layout(position)
      && (forall k :: k in s.widgets[i] && k != "position" ==> r.widgets[i][k] == s.widgets[i][k])
  {
    State(seq(|s.widgets|, i requires 0 <= i < |s.widgets| =>
            if HasId(s.widgets[i], id) then s.widgets[i]["position" := Layout(position)] else s.widgets[i]),
          s.theme)
  }

  /** Moving a widget is updating it with a one-field object holding the position. */
  lemma PositionIsUpdate(s: State, id: string, position: Position)
    ensures UpdateWidgetPosition(s, id, position) == UpdateWidget(s, id, map["position" := Layout(position)])
  {
    var a := UpdateWidgetPosition(s, id, position);
    var b := UpdateWidget(s, id, map["position" := Layout(position)]);
    forall i | 0 <= i < |s.widgets| ensures a.widgets[i] == b.widgets[i] {
      if HasId(s.widgets[i], id) {
        assert s.widgets[i]["position" := Layout(position)] == s.widgets[i] + map["position" := Layout(position)];
      }
    }
  }

  /** `toggleTheme`: 'light' becomes 'dark', anything else becomes 'light'. */
  function ToggleTheme(s: State): (r: State)
    ensures r.widgets == s.widgets
    ensures r.theme == Light || r.theme == Dark
    ensures r.theme == Dark <==> s.theme == Light
  {
    State(s.widgets, if s.theme == Light then Dark else Light)
  }

  /** Toggling twice restores a light or dark theme; any other stored theme ends up dark. */
  lemma ToggleTwice(s: State)
    ensures s.theme == Light || s.theme == Dark ==> ToggleTheme(ToggleTheme(s)) == s
    ensures s.theme != Light && s.theme != Dark ==> ToggleTheme(ToggleTheme(s)).theme == Dark
  {
  }

  /** `clearAllWidgets`. */
  function ClearAllWidgets(s: State): (r: State)
    ensures r.widgets == [] && r.theme == s.theme
  {
    s.(widgets := [])
  }
}
