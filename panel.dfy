/// The panel component: its configuration state, the host's persisted
/// configuration slot as far as the panel writes it, and the effect that
/// reruns the projection and redraws the chart when the configuration changes.
module Dashboard {
  import opened JsValues
  import opened PanelConfig
  import Projection
  import Chart

  class Panel {
    const screen: Screen
    const host: Chart.ChartHost
    /** The component's `config` state. */
    var config: Config
    /** The `tableSource` state: the ids of the base's tables, in host order. */
    var tableIds: seq<string>
    /** The last configuration this panel handed to `saveConfig`. */
    var saved: Option<Config>

    ghost predicate Valid()
      reads this, host, host.drawn
    {
      host.Valid()
    }

    constructor (screen: Screen)
      ensures Valid() && this.screen == screen
      ensures config == InitialConfig(screen) && tableIds == [] && saved == None
      ensures fresh(host) && host.chart == null
    {
      this.screen := screen;
      host := new Chart.ChartHost();
      config := InitialConfig(screen);
      tableIds := [];
      saved := None;
    }

    /** Initialisation when the dashboard is being created: remember the table list
        and select the first table (or `undefined` when there is none). */
    method InitCreate(tableList: seq<string>)
      requires Valid()
      modifies this`config, this`tableIds
      ensures Valid()
      ensures tableIds == tableList
      ensures config == FormEdit(old(config), TableKey, FirstTableId(tableList))
    {
      tableIds := tableList;
      config := config[TableKey := FirstTableId(tableList)];
    }

    /** Initialisation in the setting and view states: remember the table list and
        install the stored configuration whole. (The guard in front of the
        replacement reads the configuration of the component's first render,
        whose table id is always empty, so the replacement always happens.) */
    method InitRestore(tableList: seq<string>, stored: Config)
      requires Valid()
      modifies this`config, this`tableIds
      ensures Valid()
      ensures tableIds == tableList && config == stored
    {
      tableIds := tableList;
      config := stored;
    }

    /** The form's value-change handler: one key replaced, the rest kept. */
    method EditField(key: string, val: JsValue)
      requires Valid()
      modifies this`config
      ensures Valid()
      ensures config == FormEdit(old(config), key, val)
    {
      config := config[key := val];
    }

    /** The colour picker of the styled screen: only `textColor` changes. */
    method PickColour(hex: string)
      requires Valid()
      requires screen == Styled
      modifies this`config
      ensures Valid()
      ensures config == FormEdit(old(config), TextColorKey, Str(hex))
    {
      config := config[TextColorKey := Str(hex)];
    }

    /** The confirm button: hand the current configuration to the host. */
    method Save()
      requires Valid()
      modifies this`saved
      ensures Valid()
      ensures saved == Some(config)
    {
      saved := Some(config);
    }

    /** The reset button: save the fixed defaults, with the first table
        selected, and install the same record. */
    method Reset()
      requires Valid()
      modifies this`config, this`saved
      ensures Valid()
      ensures config == ResetConfig(screen, tableIds)
      ensures saved == Some(config)
    {
      var defaults := ResetConfig(screen, tableIds);
      saved := Some(defaults);
      config := defaults;
    }

    /** A configuration change made elsewhere: the whole record is replaced. */
    method RemoteChange(c: Config)
      requires Valid()
      modifies this`config
      ensures Valid()
      ensures config == c
    {
      config := c;
    }

    /** The effect that runs after each configuration change. The guard
        decides; when it passes, the chart data is projected from `table`
        (the table the configured id names) and drawn with the screen's
        options. `elements` and `firstGeometry` are what the widget's layout
        produces for the new chart. */
    method Refresh(table: Projection.HostTable, parseFloat: string -> JsNumber, stringToNumber: string -> JsNumber,
                   elements: seq<Chart.Element>, firstGeometry: nat) returns (gate: Gate)
      requires Valid()
      requires firstGeometry <= |elements|
      modifies host, host.drawn
      ensures Valid()
      ensures gate == RenderGate(config)
      ensures gate == Draw ==>
        && host.chart != null && fresh(host.chart)
        && host.drawn == old(host.drawn) + [host.chart]
        && host.chart.data == Projection.ChartData(table, Get(config, SourceKey), Get(config, TargetKey),
                                                   Get(config, ValueKey), parseFloat)
        && host.chart.options == Chart.OptionsFor(screen, config, stringToNumber)
        && (old(host.chart) != null ==> old(host.chart).destroyed)
      ensures gate != Draw ==> host.chart == old(host.chart) && host.drawn == old(host.drawn)
    {
      gate := RenderGate(config);
      if gate == Draw {
        var data := Projection.CalcChartData(table, Get(config, SourceKey), Get(config, TargetKey),
                                             Get(config, ValueKey), parseFloat);
        assert data == Projection.ChartData(table, Get(config, SourceKey), Get(config, TargetKey),
                                            Get(config, ValueKey), parseFloat);
        var options := Chart.OptionsFor(screen, config, stringToNumber);
        var _ := host.Draw(data, options, elements, firstGeometry);
      }
    }
  }
}
