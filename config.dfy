/// The panel's configuration record and the rule that decides whether the
/// chart is recomputed and drawn for it.
module PanelConfig {
  import opened JsValues

  /** The configuration is a plain JavaScript object: property name to value.
      Keys outside the defaults can appear (a form field the defaults do not
      list, or a configuration written by another screen). */
  type Config = map<string, JsValue>

  /** The two screens that share this logic: `Styled` is src/App.tsx (fourteen
      keys, style taken from the configuration), `Basic` is src/App_antd.tsx
      (four keys, chart drawn with the widget defaults). */
  datatype Screen = Styled | Basic

  const TableKey: string := "tableId"
  const SourceKey: string := "source_col"
  const TargetKey: string := "target_col"
  const ValueKey: string := "value_col"
  const TextColorKey: string := "textColor"

  /** Reading a property: a missing key reads as `undefined`. */
  function Get(c: Config, key: string): JsValue
  {
    if key in c then c[key] else Undefined
  }

  /** The id of the first table the base lists, or `undefined` when it lists none. */
  function FirstTableId(tableIds: seq<string>): JsValue
  {
    if |tableIds| == 0 then Undefined else Str(tableIds[0])
  }

  /** The full record of the styled screen; it is built with two different
      node widths, 20 initially and 15 on reset. */
  function StyledConfig(tableId: JsValue, nodeWidth: real): Config
  {
    map[
      TableKey := tableId,
      SourceKey := Null,
      ValueKey := Null,
      TargetKey := Null,
      "selectedTheme" := Num(Finite(0.0)),
      "nodeWidth" := Num(Finite(nodeWidth)),
      "nodePaddingRatio" := Num(Finite(80.0)),
      "nodeOpacity" := Num(Finite(100.0)),
      "linkOpacity" := Num(Finite(80.0)),
      "textSize" := Num(Finite(15.0)),
      "textWeight" := Str("normal"),
      "nodeAlign" := Str("right"),
      TextColorKey := Str("#000000"),
      "showNodeValue" := Bool(false)
    ]
  }

  /** The four-key record of the basic screen. */
  function BasicConfig(tableId: JsValue): Config
  {
    map[TableKey := tableId, SourceKey := Null, ValueKey := Null, TargetKey := Null]
  }

  /** The state the panel starts from, before any configuration is loaded. */
  function InitialConfig(screen: Screen): (r: Config)
    ensures Get(r, TableKey) == Str("")
    ensures Get(r, SourceKey) == Null && Get(r, TargetKey) == Null && Get(r, ValueKey) == Null
  {
    match screen
    case Styled => StyledConfig(Str(""), 20.0)
    case Basic => BasicConfig(Str(""))
  }

  /** What the reset button saves and installs. */
  function ResetConfig(screen: Screen, tableIds: seq<string>): (r: Config)
    ensures Get(r, TableKey) == (if |tableIds| == 0 then Undefined else Str(tableIds[0]))
    ensures Get(r, SourceKey) == Null && Get(r, TargetKey) == Null && Get(r, ValueKey) == Null
  {
    match screen
    case Styled => StyledConfig(FirstTableId(tableIds), 15.0)
    case Basic => BasicConfig(FirstTableId(tableIds))
  }

  /** A form edit (an object spread with one key overridden): it replaces
      one key and keeps every other key and value. */
  function FormEdit(c: Config, key: string, val: JsValue): (r: Config)
    ensures r.Keys == c.Keys + {key}
    ensures Get(r, key) == val
    ensures forall k :: k != key ==> Get(r, k) == Get(c, k)
  {
    c[key := val]
  }

  /** Outcome of the render effect's guard. `Throws` is the TypeError that
      reading `.length` of an `undefined` or `null` table id raises. */
  datatype Gate = Skip | Draw | Throws

  /** All three column selections are truthy. */
  predicate ColumnsSet(c: Config)
  {
    Truthy(Get(c, SourceKey)) && Truthy(Get(c, TargetKey)) && Truthy(Get(c, ValueKey))
  }

  /** The guard of the render effect: the table id's length is not zero and
      the columns are set. A table id that is neither a string nor
      `undefined`/`null` has no length, which compares unequal to zero, so
      it passes the first test. */
  function RenderGate(c: Config): (g: Gate)
    ensures g == Draw ==> ColumnsSet(c) && Get(c, TableKey) != Str("")
    ensures g == Throws ==> !Get(c, TableKey).Str? && !Get(c, TableKey).Num?
  {
    match Get(c, TableKey)
    case Undefined => Throws
    case Null => Throws
    case Str(s) => if |s| != 0 && ColumnsSet(c) then Draw else Skip
    case _ => if ColumnsSet(c) then Draw else Skip
  }

  // ---------------------------------------------------------------------
  // Properties of the gate

  /** For a string table id the chart is drawn exactly when the id is
      non-empty and the three columns are set. */
  lemma GateDrawsIff(c: Config)
    requires Get(c, TableKey).Str?
    ensures RenderGate(c) == Draw <==>
      Get(c, TableKey).s != "" && Truthy(Get(c, SourceKey)) && Truthy(Get(c, TargetKey)) && Truthy(Get(c, ValueKey))
    ensures RenderGate(c) != Throws
  {
  }

  /** The guard throws exactly when the table id is `undefined` or `null`. */
  lemma GateThrowsIff(c: Config)
    ensures RenderGate(c) == Throws <==> Get(c, TableKey) == Undefined || Get(c, TableKey) == Null
  {
  }

  /** Nothing checks that the three columns differ: when the chart is drawn
      for a configuration, it is also drawn after the target column is set
      to the source column. */
  lemma EqualColumnsAccepted(c: Config)
    requires RenderGate(c) == Draw
    ensures RenderGate(FormEdit(c, TargetKey, Get(c, SourceKey))) == Draw
    ensures RenderGate(FormEdit(c, ValueKey, Get(c, SourceKey))) == Draw
  {
  }

  /** Choosing the three columns on a configuration with a non-empty table id
      makes the chart draw, whatever else the configuration holds. */
  lemma SelectingColumnsDraws(c: Config, t: string, s: string, g: string, v: string)
    requires Get(c, TableKey) == Str(t) && t != ""
    requires s != "" && g != "" && v != ""
    ensures RenderGate(FormEdit(FormEdit(FormEdit(c, SourceKey, Str(s)), TargetKey, Str(g)), ValueKey, Str(v))) == Draw
  {
  }

  /** Clearing any one column stops the drawing. */
  lemma ClearedColumnSkips(c: Config, key: string)
    requires key == SourceKey || key == TargetKey || key == ValueKey
    ensures RenderGate(FormEdit(c, key, Null)) != Draw
  {
  }

  /** An edit of a key the guard does not read (a style key, the colour
      picker's `textColor`) leaves the guard's outcome as it was. */
  lemma StyleEditKeepsGate(c: Config, key: string, val: JsValue)
    requires key !in {TableKey, SourceKey, TargetKey, ValueKey}
    ensures RenderGate(FormEdit(c, key, val)) == RenderGate(c)
  {
  }

  /** Changing the table keeps the three column selections: nothing clears
      them, so they may name fields of the previous table. */
  lemma TableEditKeepsColumns(c: Config, val: JsValue)
    ensures Get(FormEdit(c, TableKey, val), SourceKey) == Get(c, SourceKey)
    ensures Get(FormEdit(c, TableKey, val), TargetKey) == Get(c, TargetKey)
    ensures Get(FormEdit(c, TableKey, val), ValueKey) == Get(c, ValueKey)
  {
  }

  // ---------------------------------------------------------------------
  // Properties of the edits

  /** Re-applying an edit changes nothing. */
  lemma FormEditIdempotent(c: Config, key: string, val: JsValue)
    ensures FormEdit(FormEdit(c, key, val), key, val) == FormEdit(c, key, val)
  {
  }

  /** Edits of two different keys commute. */
  lemma FormEditsCommute(c: Config, k1: string, v1: JsValue, k2: string, v2: JsValue)
    requires k1 != k2
    ensures FormEdit(FormEdit(c, k1, v1), k2, v2) == FormEdit(FormEdit(c, k2, v2), k1, v1)
  {
  }

  /** Editing a key back to its former value restores the configuration. */
  lemma FormEditUndone(c: Config, key: string, val: JsValue)
    requires key in c
    ensures FormEdit(FormEdit(c, key, val), key, c[key]) == c
  {
  }

  // ---------------------------------------------------------------------
  // Properties of the fixed records

  /** The freshly started panel never draws: its table id is the empty string. */
  lemma InitialSkips(screen: Screen)
    ensures RenderGate(InitialConfig(screen)) == Skip
  {
  }

  /** Reset clears the three columns, so it never draws; on a base that lists
      no table the table id becomes `undefined` and the guard throws. */
  lemma ResetNeverDraws(screen: Screen, tableIds: seq<string>)
    ensures Get(ResetConfig(screen, tableIds), SourceKey) == Null
    ensures Get(ResetConfig(screen, tableIds), TargetKey) == Null
    ensures Get(ResetConfig(screen, tableIds), ValueKey) == Null
    ensures RenderGate(ResetConfig(screen, tableIds)) == (if |tableIds| == 0 then Throws else Skip)
  {
  }

  /** Reset has the initial record's keys; on the styled screen it differs
      from the initial record in the table id and in the node width (15
      instead of 20), on the basic screen in the table id only. */
  lemma ResetVersusInitial(screen: Screen, tableIds: seq<string>, k: string)
    ensures ResetConfig(screen, tableIds).Keys == InitialConfig(screen).Keys
    ensures Get(ResetConfig(screen, tableIds), TableKey) == FirstTableId(tableIds)
    ensures k != TableKey && k != "nodeWidth" ==> Get(ResetConfig(screen, tableIds), k) == Get(InitialConfig(screen), k)
    ensures screen == Styled ==> Get(ResetConfig(screen, tableIds), "nodeWidth") == Num(Finite(15.0))
    ensures screen == Styled ==> Get(InitialConfig(screen), "nodeWidth") == Num(Finite(20.0))
  {
  }
}
