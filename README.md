# Sankey dashboard panel: configuration-to-chart pipeline

This project models the logic of a dashboard panel for a spreadsheet base. The panel draws a
Sankey diagram from one of the base's tables. The user picks a table and three columns: the
source, the target and the value of each flow. The panel keeps a configuration record, reacts to
edits, to reset and to configuration changes made elsewhere, projects every record of the table
into a `{source, target, value, path}` item, and hands the items to a charting widget.

The repository has two versions of the same screen, and both are modelled once:

- `src/App.tsx` is the *styled* screen (`Screen.Styled`). Its configuration has fourteen keys, and
  it passes its style settings to the chart.
- `src/App_antd.tsx` is the *basic* screen (`Screen.Basic`). Its configuration has four keys, and
  it passes only the data, so the chart uses every default.

The projection, the gate, the edit handlers and the chart adapter follow the same logic in both
files. The code differs in form. The styled screen's adapter takes one options object whose
properties have defaults; the basic screen's takes positional parameters with defaults. The two
form libraries also name the change handler and its arguments differently. Line correspondence, styled to basic:

| part | styled | basic |
|---|---|---|
| chart adapter | 55-176 | 94-214 |
| initial configuration | 200-215 | 238-243 |
| initialisation | 217-251 | 245-280 |
| projection | 333-401 | 361-428 |
| reset | 411-447 | 438-454 |
| form edit | 547-555 | 486-493 |

Modules:

- `JsValues` (js_values.dfy): the JavaScript values the state carries (`undefined`, `null`,
  booleans, numbers with NaN and infinities, strings). It also holds truthiness, string
  conversion and division.
- `PanelConfig` (config.dfy): the configuration as a JavaScript object (`map<string, JsValue>`),
  the fixed records, the one-key form edit, and the render gate.
- `Projection` (projection.dfy): the name lookup, the per-record dictionary, the items and the
  parse pass. `CalcChartData` is the imperative routine with its three loops. `ChartData` is the
  specification it is proved against.
- `Chart` (chart.dfy): the options each screen passes, the label formatter and callback, and the
  hover highlighting on a `Plot` object. `ChartHost` is the container slot that holds at most one
  live chart.
- `Dashboard` (panel.dfy): the `Panel` class, which holds the configuration state, the
  configuration saved to the host, and the refresh effect that ties the gate, the projection and
  the drawing together.

The host platform is an input, not something the model calls. A table is its field list
`(id, name)`, its record-id list, and a cell function `(fieldId, recordId) -> string`
(`Projection.HostTable`). The float parse and the string-to-number conversion are parameters.

Behaviour the code has that a reader might not expect, each stated as a lemma:

- Nothing checks that the three columns differ (`EqualColumnsAccepted`).
- A table change does not clear the column selections (`TableEditKeepsColumns`).
- Reset on a base with no tables sets the table id to `undefined`. The gate then throws on
  reading its length (`ResetNeverDraws`, `GateThrowsIff`).
- A column id that names no field is looked up under the key "undefined" (`UnresolvedColumnReadsUndefinedKey`).
- Of two fields sharing a name, the later one's cell is read (`LastFieldWins`, `ResolvedColumnReadsCell`).
- A NaN parse result stays in the data. No row is dropped (`ItemContents`, `OneItemPerRecord`).
- On the styled screen, reset installs node width 15, but the initial record has 20 (`ResetVersusInitial`).
- A four-key configuration drawn on the styled screen gets NaN widths and opacities
  (`BasicConfigOnStyledScreen`).

A reader might expect four behaviours that the code does not have. In each case this model
follows the code:

- Equal columns might be expected to block rendering. The code has no such check.
- A table or range change might be expected to clear the three columns. The clearing code is
  commented out.
- Hovering an edge might be expected to highlight that edge. The code returns early for anything
  that is not a node.
- Edits might be expected to be debounced, and the projection limited to the current view. The
  code does neither: it reads the whole table on every change.

## Model

| member | source | states |
|---|---|---|
| `PanelConfig.RenderGate` | src/App.tsx:399-401 | the render guard: it draws only when all three columns are truthy and the table id is not the empty string, and throws only when the table id has no length (neither a string nor a number); the exact conditions are in `GateDrawsIff` and `GateThrowsIff` |
| `PanelConfig.InitialConfig` | src/App.tsx:200-215 | the record the panel starts from, on either screen (src/App_antd.tsx:238-243 for the basic screen): empty table id and the three columns null |
| `PanelConfig.ResetConfig` | src/App.tsx:411-447 | the record reset installs, on either screen (src/App_antd.tsx:438-454 for the basic screen): the first listed table's id, or undefined when none is listed, and the three columns null |
| `Chart.OptionsFor` | src/App.tsx:378-392 | the options a screen draws with: always the registered palette, every non-numeric option defined because the defaults replace undefined, and on the basic screen (src/App_antd.tsx:407-419) exactly the adapter's defaults |
| `Projection.ChartData` | src/App.tsx:361-372 | the specification of the projection: one item per record, each with a parsed value; `CalcChartData` is proved equal to it |
| `Projection.RowOf` | src/App.tsx:350-354 | definition of the dictionary the inner loop builds; its properties are in `RowKeys` and `LastFieldWins` |
| `Projection.Entry` | src/App.tsx:362-367 | definition of the item pushed for one record; its properties are in `ItemContents` |
| `Projection.ParseValue` | src/App.tsx:370-372 | definition of the parse of one item; its properties are in `ParseChangesOnlyValue` and `ItemContents` |
| `Chart.AfterEnter` | src/App.tsx:159-166 | definition of the flags after entering an element; its properties are in `EnterFromRest`, `EnterOnlyActivates` and `OutThenEnter` |
| `Chart.AfterOut` | src/App.tsx:170-171 | definition of the flags after leaving; its properties are in `OutThenEnter` and the loop of `Chart.Plot.MouseOut` |
| `Projection.FindNameById` | src/App.tsx:333-336 | the result is the name of the first field whose id strictly equals the column id, and none exactly when no field has that id |
| `Projection.CalcChartData` | src/App.tsx:338-372 | the three loops return one item per record, in record order; item i is record i's dictionary read under the resolved names, with its value parsed |
| `Projection.RecordDictionaries` | src/App.tsx:348-356 | the nested loops build one dictionary per record, in record order, each holding every field's cell under the field's name |
| `Projection.RowKeys` | src/App.tsx:349-356 | the per-record dictionary has exactly one key per field name |
| `Projection.LastFieldWins` | src/App.tsx:351-354 | a field's cell is stored under its name unless a later field has the same name: the later field wins |
| `Projection.ResolvedColumnReadsCell` | src/App.tsx:343-366 | a column id naming field si reads the cell of the last field bearing si's name, which is si itself when names are unique |
| `Projection.UnresolvedColumnReadsUndefinedKey` | src/App.tsx:333-366 | a column id naming no field resolves to undefined; the lookup then uses the key "undefined" and yields undefined unless a field is named "undefined" |
| `Projection.ItemContents` | src/App.tsx:361-372 | source and target are the dictionary entries under the resolved names; path is source, target and the raw value string joined by " -> "; value is the parse of that raw string |
| `Projection.ParseChangesOnlyValue` | src/App_antd.tsx:399-401 | the parse pass rewrites only the value; source, target and path stay |
| `Projection.OneItemPerRecord` | src/App_antd.tsx:378-398 | the item count is the record count, whatever the field list |
| `Projection.ItemOfResolvedColumns` | src/App.tsx:343-372 | with unique ids and names, item i is the three cells of record i, the parse of the value cell, and the path "s -> t -> v" |
| `Projection.ExampleFirstItem` | src/App.tsx:360-372 | in a two-record example table, record 1 gives the item A -> B -> 10 |
| `Projection.ExampleSecondItem` | src/App.tsx:360-372 | in the same table, record 2 gives the item B -> C -> 5 |
| `Projection.TwoRecordExample` | src/App.tsx:338-372 | the example table projects to exactly those two items, in order |
| `PanelConfig.FormEdit` | src/App.tsx:547-555 | a form edit sets the edited key to the new value and keeps every other key and value |
| `PanelConfig.FormEditIdempotent` | src/App_antd.tsx:486-493 | repeating an edit changes nothing |
| `PanelConfig.FormEditsCommute` | src/App_antd.tsx:487-492 | edits of different keys commute |
| `PanelConfig.FormEditUndone` | src/App.tsx:549-554 | editing a key back to its former value restores the configuration |
| `PanelConfig.GateDrawsIff` | src/App.tsx:399-401 | for a string table id, drawing happens if and only if the id is non-empty and all three columns are truthy |
| `PanelConfig.GateThrowsIff` | src/App_antd.tsx:426-428 | the guard throws if and only if the table id is undefined or null |
| `PanelConfig.EqualColumnsAccepted` | src/App.tsx:399 | setting a column equal to another never stops a drawing configuration from drawing |
| `PanelConfig.SelectingColumnsDraws` | src/App_antd.tsx:426-427 | with a non-empty table id, choosing three non-empty column ids makes the chart draw |
| `PanelConfig.ClearedColumnSkips` | src/App_antd.tsx:426 | clearing any one column stops the drawing |
| `PanelConfig.StyleEditKeepsGate` | src/App.tsx:706-712 | an edit of a key other than the table and the three columns, such as the colour, keeps the gate's outcome |
| `PanelConfig.TableEditKeepsColumns` | src/App.tsx:316-330 | changing the table keeps the three column selections |
| `PanelConfig.InitialSkips` | src/App.tsx:200-215 | the initial record never draws, on either screen |
| `PanelConfig.ResetNeverDraws` | src/App_antd.tsx:438-454 | reset nulls the three columns, so the gate skips; with no table listed, the gate throws |
| `PanelConfig.ResetVersusInitial` | src/App.tsx:411-447 | reset has the initial record's keys and values, except the table id (the first table's) and, on the styled screen, node width 15 instead of 20 |
| `Chart.LabelText` | src/App.tsx:114-120 | the label starts with the node name; it is the name alone exactly when showNodeValue is falsy, otherwise the name, a newline, then the value text |
| `Chart.LabelCallback` | src/App.tsx:121-133 | a node whose second coordinate is exactly 1 gets align end and offset -8, any other gets start and +8; fill, size and weight come from the options |
| `Chart.EnterFromRest` | src/App.tsx:156-167 | with nothing active, entering node n activates exactly the nodes named n and the edges with n at either end |
| `Chart.EnterOnlyActivates` | src/App_antd.tsx:194-205 | entering never deactivates an element, and entering an edge changes nothing |
| `Chart.OutThenEnter` | src/App.tsx:156-172 | if mouse-out clears every element, the next node entry leaves exactly that node's neighbourhood active |
| `Chart.BasicScreenDrawsDefaults` | src/App_antd.tsx:407-419 | the basic screen draws with align right, node width and padding 0.03, link opacity 0.8 and node opacity 1, whatever its configuration |
| `Chart.StyledOptionsRescaled` | src/App.tsx:381-390 | numeric widths reach the widget divided by 1000 and opacities divided by 100 (exact division; see "## Left out") |
| `Chart.InitialStyledOptions` | src/App.tsx:378-392 | the styled screen's initial record draws with width 0.02, padding 0.08, link opacity 0.8, node opacity 1 and black labels |
| `Chart.BasicConfigOnStyledScreen` | src/App.tsx:380-391 | a four-key configuration on the styled screen gets the text defaults but NaN widths and opacities |
| `Chart.PickedColourFillsLabels` | src/App.tsx:126 | the colour picked for textColor is the fill of every label |
| `Chart.Plot.constructor` | src/App.tsx:99-154 | a new chart keeps its data and options, and no element is active |
| `Chart.Plot.MouseEnter` | src/App.tsx:156-167 | the active flags become the entry rule applied to the old flags |
| `Chart.Plot.MouseOut` | src/App.tsx:169-172 | the loop deactivates the first geometry's elements and keeps the rest |
| `Chart.Plot.Destroy` | src/App.tsx:91-94 | the chart is marked destroyed |
| `Chart.ChartHost.constructor` | src/App.tsx:54 | the container starts with no chart |
| `Chart.ChartHost.Draw` | src/App_antd.tsx:129-212 | a previously held chart is destroyed, and the new chart is stored; only the slot and the chart it held may change, every earlier chart stays destroyed, so at most one is live |
| `Dashboard.Panel.constructor` | src/App.tsx:200-215 | the panel starts with its screen's initial record and no chart |
| `Dashboard.Panel.InitCreate` | src/App.tsx:221-234 | when creating, the table list is kept and only the table id changes, to the first table's |
| `Dashboard.Panel.InitRestore` | src/App_antd.tsx:264-276 | in the setting and view states, the stored configuration replaces the record whole |
| `Dashboard.Panel.EditField` | src/App_antd.tsx:486-493 | the configuration becomes the one-key form edit of the old one |
| `Dashboard.Panel.PickColour` | src/App.tsx:706-712 | only textColor changes |
| `Dashboard.Panel.Save` | src/App.tsx:405-410 | the saved configuration is the current one |
| `Dashboard.Panel.Reset` | src/App.tsx:411-447 | the reset record is both saved and installed |
| `Dashboard.Panel.RemoteChange` | src/App.tsx:302-310 | a remote change replaces the whole record |
| `Dashboard.Panel.Refresh` | src/App.tsx:332-402 | the outcome is the gate's; on Draw, the old chart is destroyed and the new one holds the projected data and the screen's options; otherwise the chart is untouched |

## Left out

- Numbers are exact reals. The rounding of `/` is not modelled (in the program `7 / 100 * 100`
  is not 7), and neither are negative zero and underflow.
- Dashboard.Panel.Refresh: when the guard throws (the table id is undefined or null), the
  TypeError escapes the effect uncaught. What then happens to the component tree is not
  modelled; the model's panel keeps accepting events.
- Host calls: listing tables, fetching fields, records and cells, and saving configuration are
  asynchronous. The model takes their results as inputs and runs each effect to completion.
  Overlapping effects and failed fetches are not modelled.
- The chart-error flag: the try/catch around drawing only reacts to widget failures.
- The range and category lookups on a table change: they only fill the selectors.
- Rendering, form markup, field-type icons, locale switching and date formatting are UI.
- Float parsing, number formatting in labels, and string-to-number conversion are parameters
  without an interpretation. The model does not fix that parsing "undefined" gives NaN.
- Widget internals: layout, theme registration, render and update, tooltip, overlap hiding and
  node dragging. The element list a layout produces is an input to `Chart.Plot`.
- Chart.Plot.MouseOut: the code clears the elements of the first geometry of the first view. The
  model takes these as the first `firstGeometry` elements of the plot's list. Which elements the
  widget puts there is not modelled.
- The dictionary is a plain map. Property names inherited from the JavaScript object prototype,
  such as a field named "__proto__" or a lookup of "toString", are not modelled.
- Configuration values are undefined, null, booleans, numbers or strings. Object and array values
  in a configuration written elsewhere are not modelled.
- A form change event is one key and one value. An event object with no key is not modelled.
- Dashboard.Panel.InitRestore: the guard in front of the replacement reads the record of the first
  render, whose table id is always empty. The model replaces the record unconditionally.
- Dead code: commented-out blocks, the unused units table, the unused options list, and the
  unused `selectedTheme` key (no theme is passed to the chart).
