/// The adapter over the Sankey widget: the options each screen passes, the
/// label formatter and callback, the hover highlighting, and the container
/// that holds at most one live chart.
module Chart {
  import opened JsValues
  import opened PanelConfig
  import Projection

  /** The options the adapter hands to the widget, after its parameter defaults are applied. */
  datatype ChartOptions = ChartOptions(
    nodeAlign: JsValue,
    nodeWidth: JsNumber,
    nodePaddingRatio: JsNumber,
    linkOpacity: JsNumber,
    nodeOpacity: JsNumber,
    textSize: JsValue,
    textWeight: JsValue,
    textColor: JsValue,
    palette: seq<string>,
    showNodeValue: JsValue)

  /** The twenty colours of the theme the adapter registers; no caller passes another theme. */
  const DefaultPalette: seq<string> := [
    "#FF5733", "#C70039", "#900C3F", "#581845", "#1B4F72",
    "#2E86C1", "#AED6F1", "#A569BD", "#196F3D", "#F1C40F",
    "#FFC300", "#DAF7A6", "#FFC0CB", "#808000", "#0000FF",
    "#008080", "#800080", "#FFA500", "#00FFFF", "#FF00FF"]

  /** The adapter's parameter defaults. */
  const DefaultOptions: ChartOptions := ChartOptions(
    Str("right"), Finite(0.03), Finite(0.03), Finite(0.8), Finite(1.0),
    Num(Finite(15.0)), Str("normal"), Str("#545454"), DefaultPalette, Bool(false))

  /** A destructuring default: it replaces `undefined` only (not `null`). */
  function OrDefault(v: JsValue, d: JsValue): JsValue
  {
    if v == Undefined then d else v
  }

  /** A configured value divided by a constant: the rescaling from the form's
      scale to the widget's 0-1 scale. */
  function Rescale(c: Config, key: string, divisor: real, stringToNumber: string -> JsNumber): JsNumber
    requires divisor > 0.0
  {
    Divide(ToNumber(Get(c, key), stringToNumber), divisor)
  }

  /** The options a screen draws with. The styled screen passes its
      configuration's style (widths over 1000, opacities over 100, and no
      theme); the basic screen passes only the data, so every option is a
      default. */
  function OptionsFor(screen: Screen, c: Config, stringToNumber: string -> JsNumber): (r: ChartOptions)
    ensures r.palette == DefaultPalette
    ensures r.nodeAlign != Undefined && r.textSize != Undefined && r.textWeight != Undefined
    ensures r.textColor != Undefined && r.showNodeValue != Undefined
    ensures screen == Basic ==> r == DefaultOptions
  {
    match screen
    case Basic => DefaultOptions
    case Styled =>
      ChartOptions(
        OrDefault(Get(c, "nodeAlign"), DefaultOptions.nodeAlign),
        Rescale(c, "nodeWidth", 1000.0, stringToNumber),
        Rescale(c, "nodePaddingRatio", 1000.0, stringToNumber),
        Rescale(c, "linkOpacity", 100.0, stringToNumber),
        Rescale(c, "nodeOpacity", 100.0, stringToNumber),
        OrDefault(Get(c, "textSize"), DefaultOptions.textSize),
        OrDefault(Get(c, "textWeight"), DefaultOptions.textWeight),
        OrDefault(Get(c, TextColorKey), DefaultOptions.textColor),
        DefaultPalette,
        OrDefault(Get(c, "showNodeValue"), DefaultOptions.showNodeValue))
  }

  // ---------------------------------------------------------------------
  // Labels

  /** The label formatter: the node's name, followed by a line with its value
      when `showNodeValue` is truthy. `valueText` is the widget's rendering
      of the node's value. */
  function LabelText(showNodeValue: JsValue, name: string, valueText: string): (r: string)
    ensures |r| >= |name| && r[..|name|] == name
    ensures r == name <==> !Truthy(showNodeValue)
    ensures Truthy(showNodeValue) ==> r[|name|] == '\n' && r[|name| + 1..] == valueText
  {
    if Truthy(showNodeValue) then name + "\n" + valueText else name
  }

  /** The style the label callback returns. */
  datatype LabelStyle = LabelStyle(fill: JsValue, textAlign: string, fontSize: JsValue, fontWeight: JsValue, offsetX: int)

  /** The label callback: a node whose second coordinate is exactly 1 sits in
      the last column and gets a right-aligned label drawn 8 to its left;
      every other node a left-aligned label drawn 8 to its right. */
  function LabelCallback(x: seq<JsNumber>, o: ChartOptions): (r: LabelStyle)
    ensures (r.textAlign == "end" && r.offsetX == -8) || (r.textAlign == "start" && r.offsetX == 8)
    ensures r.textAlign == "end" <==> |x| > 1 && x[1] == Finite(1.0)
    ensures r.fill == o.textColor && r.fontSize == o.textSize && r.fontWeight == o.textWeight
  {
    var isLast := |x| > 1 && x[1] == Finite(1.0);
    LabelStyle(o.textColor, if isLast then "end" else "start", o.textSize, o.textWeight, if isLast then -8 else 8)
  }

  // ---------------------------------------------------------------------
  // Hover highlighting

  /** A laid-out element's datum: a node, or an edge between two node names. */
  datatype Element = NodeElement(name: string) | EdgeElement(source: string, target: string)

  /** The condition that sets the active state when node `hovered` is
      entered: nodes of that name, and edges with it at either end. */
  predicate Activates(hovered: string, e: Element)
  {
    match e
    case NodeElement(name) => name == hovered
    case EdgeElement(source, target) => source == hovered || target == hovered
  }

  /** The active flags after the mouse enters `hovered`: entering an edge
      changes nothing; entering a node sets the flag of every element the
      condition accepts and leaves the others as they were. */
  function AfterEnter(elements: seq<Element>, active: seq<bool>, hovered: Element): seq<bool>
    requires |active| == |elements|
  {
    match hovered
    case EdgeElement(_, _) => active
    case NodeElement(n) => seq(|active|, i requires 0 <= i < |active| => active[i] || Activates(n, elements[i]))
  }

  /** The active flags after the mouse leaves an element: the elements of the
      first geometry of the first view (the first `cleared` elements) are
      deactivated, the rest keep their flags. */
  function AfterOut(active: seq<bool>, cleared: nat): seq<bool>
  {
    seq(|active|, i requires 0 <= i < |active| => if i < cleared then false else active[i])
  }

  /** Entering a node with no element active activates exactly the nodes of
      that name and the edges that touch it. */
  lemma EnterFromRest(elements: seq<Element>, n: string, i: nat)
    requires i < |elements|
    ensures |AfterEnter(elements, seq(|elements|, _ => false), NodeElement(n))| == |elements|
    ensures AfterEnter(elements, seq(|elements|, _ => false), NodeElement(n))[i] <==> Activates(n, elements[i])
  {
  }

  /** Entering never deactivates; entering an edge changes nothing. */
  lemma EnterOnlyActivates(elements: seq<Element>, active: seq<bool>, hovered: Element, i: nat)
    requires |active| == |elements| && i < |elements|
    ensures |AfterEnter(elements, active, hovered)| == |elements|
    ensures active[i] ==> AfterEnter(elements, active, hovered)[i]
    ensures hovered.EdgeElement? ==> AfterEnter(elements, active, hovered) == active
  {
  }

  /** When the cleared geometry holds every element, leaving and entering a
      node again leaves exactly that node's neighbourhood active, whatever
      was active before. */
  lemma OutThenEnter(elements: seq<Element>, active: seq<bool>, n: string, i: nat)
    requires |active| == |elements| && i < |elements|
    ensures AfterEnter(elements, AfterOut(active, |elements|), NodeElement(n))[i] <==> Activates(n, elements[i])
  {
    assert AfterOut(active, |elements|) == seq(|elements|, _ => false);
  }

  /** A drawn chart: the data and options it was built with, the element list
      its layout produced, and each element's active flag. */
  class Plot {
    const data: seq<Projection.ChartItem>
    const options: ChartOptions
    const elements: seq<Element>
    const firstGeometry: nat
    var active: seq<bool>
    var destroyed: bool

    ghost predicate Valid()
      reads this
    {
      |active| == |elements| && firstGeometry <= |elements|
    }

    /** A newly built and rendered chart: nothing is active yet. */
    constructor (data: seq<Projection.ChartItem>, options: ChartOptions, elements: seq<Element>, firstGeometry: nat)
      requires firstGeometry <= |elements|
      ensures Valid()
      ensures this.data == data && this.options == options
      ensures this.elements == elements && this.firstGeometry == firstGeometry
      ensures active == seq(|elements|, _ => false) && !destroyed
    {
      this.data := data;
      this.options := options;
      this.elements := elements;
      this.firstGeometry := firstGeometry;
      active := seq(|elements|, _ => false);
      destroyed := false;
    }

    /** The `element:mouseenter` handler. */
    method MouseEnter(hovered: Element)
      requires Valid()
      modifies this`active
      ensures Valid()
      ensures active == AfterEnter(elements, old(active), hovered)
    {
      if hovered.NodeElement? {
        active := AfterEnter(elements, active, hovered);
      }
    }

    /** The `element:mouseout` handler: a loop over the first geometry's
        elements that sets each one inactive. */
    method MouseOut()
      requires Valid()
      modifies this`active
      ensures Valid()
      ensures active == AfterOut(old(active), firstGeometry)
    {
      var k := 0;
      while k < firstGeometry
        invariant 0 <= k <= firstGeometry
        invariant active == AfterOut(old(active), k)
      {
        active := active[k := false];
        k := k + 1;
      }
    }

    method Destroy()
      modifies this`destroyed
      ensures destroyed
    {
      destroyed := true;
    }
  }

  /** The chart container's `chart` slot. `drawn` lists every chart ever
      stored there, oldest first. */
  class ChartHost {
    var chart: Plot?
    ghost var drawn: seq<Plot>

    /** At most one chart is alive: the one in the slot, which is the last
        drawn; every earlier one has been destroyed. */
    ghost predicate Valid()
      reads this, drawn
    {
      && (chart == null <==> |drawn| == 0)
      && (chart != null ==> chart == drawn[|drawn| - 1] && !chart.destroyed)
      && forall k :: 0 <= k < |drawn| - 1 ==> drawn[k].destroyed
    }

    constructor ()
      ensures Valid() && chart == null && drawn == []
    {
      chart := null;
      drawn := [];
    }

    /** The chart-drawing routine: destroy the chart in the slot, if any,
        then build the new chart and store it. */
    method Draw(data: seq<Projection.ChartItem>, options: ChartOptions, elements: seq<Element>, firstGeometry: nat)
      returns (plot: Plot)
      requires Valid()
      requires firstGeometry <= |elements|
      modifies this, if chart == null then {} else {chart}
      ensures Valid()
      ensures fresh(plot) && chart == plot && drawn == old(drawn) + [plot]
      ensures plot.data == data && plot.options == options && plot.elements == elements
      ensures plot.active == seq(|elements|, _ => false)
      ensures old(chart) != null ==> old(chart).destroyed
    {
      var oldChart := chart;
      if oldChart != null {
        oldChart.Destroy();
      }
      plot := new Plot(data, options, elements, firstGeometry);
      chart := plot;
      drawn := drawn + [plot];
    }
  }

  // ---------------------------------------------------------------------
  // Properties of the options

  /** The basic screen draws with the widget defaults whatever its
      configuration: right alignment, node width and padding 0.03, link
      opacity 0.8, node opacity 1. */
  lemma BasicScreenDrawsDefaults(c: Config, stringToNumber: string -> JsNumber)
    ensures OptionsFor(Basic, c, stringToNumber).nodeAlign == Str("right")
    ensures OptionsFor(Basic, c, stringToNumber).nodeWidth == Finite(0.03)
    ensures OptionsFor(Basic, c, stringToNumber).nodePaddingRatio == Finite(0.03)
    ensures OptionsFor(Basic, c, stringToNumber).linkOpacity == Finite(0.8)
    ensures OptionsFor(Basic, c, stringToNumber).nodeOpacity == Finite(1.0)
    ensures OptionsFor(Basic, c, stringToNumber).showNodeValue == Bool(false)
  {
  }

  /** A numeric style value on the styled screen reaches the widget divided
      by 1000 (widths) or 100 (opacities). The division is exact here:
      numbers are modelled as reals, so the floating-point rounding of the
      quotient is not part of this statement. */
  lemma StyledOptionsRescaled(c: Config, stringToNumber: string -> JsNumber, w: real, p: real, l: real, n: real)
    requires Get(c, "nodeWidth") == Num(Finite(w)) && Get(c, "nodePaddingRatio") == Num(Finite(p))
    requires Get(c, "linkOpacity") == Num(Finite(l)) && Get(c, "nodeOpacity") == Num(Finite(n))
    ensures var o := OptionsFor(Styled, c, stringToNumber);
            && o.nodeWidth == Finite(w / 1000.0)
            && o.nodePaddingRatio == Finite(p / 1000.0)
            && o.linkOpacity == Finite(l / 100.0)
            && o.nodeOpacity == Finite(n / 100.0)
  {
  }

  /** The styled screen's initial configuration draws with node width 0.02,
      padding 0.08, link opacity 0.8, node opacity 1 and black labels. */
  lemma InitialStyledOptions(stringToNumber: string -> JsNumber)
    ensures OptionsFor(Styled, InitialConfig(Styled), stringToNumber)
      == ChartOptions(Str("right"), Finite(0.02), Finite(0.08), Finite(0.8), Finite(1.0),
                      Num(Finite(15.0)), Str("normal"), Str("#000000"), DefaultPalette, Bool(false))
  {
  }

  /** A four-key configuration (as the basic screen writes it) drawn on the
      styled screen: the text options fall back to the defaults, but the four
      rescaled options are NaN, because dividing `undefined` gives NaN, which
      is not `undefined` and so takes no default. */
  lemma BasicConfigOnStyledScreen(tableId: JsValue, stringToNumber: string -> JsNumber)
    ensures OptionsFor(Styled, BasicConfig(tableId), stringToNumber)
      == DefaultOptions.(nodeWidth := NaN, nodePaddingRatio := NaN, linkOpacity := NaN, nodeOpacity := NaN)
  {
  }

  /** The colour picker's choice is the fill of every label the styled
      screen draws. */
  lemma PickedColourFillsLabels(c: Config, hex: string, stringToNumber: string -> JsNumber, x: seq<JsNumber>)
    ensures LabelCallback(x, OptionsFor(Styled, FormEdit(c, TextColorKey, Str(hex)), stringToNumber)).fill == Str(hex)
  {
  }
}
