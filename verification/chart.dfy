/**
  The figure the dashboard shows for the view picked in its select box, and
  the whole non-I/O pipeline from dataset and picked option to figure.

  Plotly's rendering and its purely cosmetic settings (`mode`, `hoverinfo`,
  `tickangle`) are not part of the model; a trace keeps its data, name and
  marker colour, and a layout its three titles.
*/
module Chart {
  import opened Wrappers
  import opened ClockLabel
  import opened Dataset

  /** The view the select box offers, plus any other string it might hand over. */
  datatype Selection = BrightnessVsTime | CctVsTime | Overlapping | Unrecognised(option: string)

  const BrightnessOption: string := "Brightness vs Time"
  const CctOption: string := "CCT vs Time"
  const OverlappingOption: string := "Brightness & CCT Overlapping"

  /** The options of the select box, in the order it lists them. */
  const Options: seq<string> := [BrightnessOption, CctOption, OverlappingOption]

  /** The `if`/`elif` chain on the picked option: exact string comparison, first match wins. */
  function ParseSelection(option: string): (sel: Selection)
    ensures sel.Unrecognised? <==> option !in Options
    ensures sel.Unrecognised? ==> sel.option == option
    ensures !sel.Unrecognised? ==> OptionText(sel) == option
  {
    if option == BrightnessOption then BrightnessVsTime
    else if option == CctOption then CctVsTime
    else if option == OverlappingOption then Overlapping
    else Unrecognised(option)
  }

  /** The select-box text of a recognised view. */
  function OptionText(sel: Selection): (option: string)
    requires !sel.Unrecognised?
    ensures option in Options
  {
    match sel
    case BrightnessVsTime => BrightnessOption
    case CctVsTime => CctOption
    case Overlapping => OverlappingOption
  }

  /** Each option of the select box picks its own view, and each view is picked by its own option. */
  lemma {:induction false} OptionsRoundTrip(sel: Selection, option: string)
    ensures !sel.Unrecognised? ==> ParseSelection(OptionText(sel)) == sel
    ensures option in Options ==> OptionText(ParseSelection(option)) == option
  {
    if !sel.Unrecognised? {
      assert BrightnessOption != CctOption && BrightnessOption != OverlappingOption && CctOption != OverlappingOption by {
        assert BrightnessOption[0] != CctOption[0];
        assert BrightnessOption[11] != OverlappingOption[11];
        assert CctOption[0] != OverlappingOption[0];
      }
    }
  }

  const XAxisTitle: string := "Time (AM/PM)"
  const BrightnessName: string := "Brightness"
  const CctName: string := "CCT (Color Temperature)"

  /** A scatter trace: x labels, y values, legend name and marker colour. */
  datatype Trace<V> = Trace(x: seq<string>, y: seq<V>, name: string, color: string)

  datatype Layout = Layout(title: string, xAxisTitle: string, yAxisTitle: string)

  /** A plotly figure; `layout` is None when `update_layout` was never called. */
  datatype Figure<V> = Figure(traces: seq<Trace<V>>, layout: Option<Layout>)

  function BrightnessTrace<V>(labels: seq<string>, brightness: seq<V>): Trace<V> {
    Trace(labels, brightness, BrightnessName, "blue")
  }

  function CctTrace<V>(labels: seq<string>, cct: seq<V>): Trace<V> {
    Trace(labels, cct, CctName, "red")
  }

  /** The three-way construction of the figure; an unrecognised option leaves `go.Figure()` empty. */
  function BuildFigure<V>(labels: seq<string>, brightness: seq<V>, cct: seq<V>, sel: Selection): (fig: Figure<V>)
    ensures sel.Unrecognised? <==> fig.traces == []
    ensures sel.Unrecognised? <==> fig.layout.None?
    ensures fig.layout.Some? ==> fig.layout.value.xAxisTitle == XAxisTitle
    ensures forall k :: 0 <= k < |fig.traces| ==> fig.traces[k].x == labels
    ensures forall k :: 0 <= k < |fig.traces| ==>
              || fig.traces[k] == BrightnessTrace(labels, brightness)
              || fig.traces[k] == CctTrace(labels, cct)
  {
    match sel
    case BrightnessVsTime =>
      Figure([BrightnessTrace(labels, brightness)],
             Some(Layout("Time vs Brightness", XAxisTitle, "Brightness Level")))
    case CctVsTime =>
      Figure([CctTrace(labels, cct)],
             Some(Layout("Time vs CCT", XAxisTitle, "CCT (K)")))
    case Overlapping =>
      Figure([BrightnessTrace(labels, brightness), CctTrace(labels, cct)],
             Some(Layout("Brightness & CCT Overlapping", XAxisTitle, "Values")))
    case Unrecognised(_) =>
      Figure([], None)
  }

  /** The view a figure shows, told from its title alone. */
  function ViewOf<V>(fig: Figure<V>): Selection {
    match fig.layout
    case None => Unrecognised("")
    case Some(layout) =>
      if layout.title == "Time vs Brightness" then BrightnessVsTime
      else if layout.title == "Time vs CCT" then CctVsTime
      else if layout.title == "Brightness & CCT Overlapping" then Overlapping
      else Unrecognised(layout.title)
  }

  /** The titles of the three views are distinct, so a recognised view is recovered from its figure. */
  lemma {:induction false} ViewOfBuildFigure<V>(labels: seq<string>, brightness: seq<V>, cct: seq<V>, sel: Selection)
    ensures ViewOf(BuildFigure(labels, brightness, cct, sel)).Unrecognised? <==> sel.Unrecognised?
    ensures !sel.Unrecognised? ==> ViewOf(BuildFigure(labels, brightness, cct, sel)) == sel
  {
    assert "Time vs Brightness" != "Time vs CCT" by {
      assert "Time vs Brightness"[8] != "Time vs CCT"[8];
    }
    assert "Brightness & CCT Overlapping" != "Time vs Brightness" by {
      assert "Brightness & CCT Overlapping"[0] != "Time vs Brightness"[0];
    }
    assert "Brightness & CCT Overlapping" != "Time vs CCT" by {
      assert "Brightness & CCT Overlapping"[0] != "Time vs CCT"[0];
    }
  }

  /** "Brightness vs Time": one blue brightness trace over the labels. */
  lemma BrightnessView<V>(labels: seq<string>, brightness: seq<V>, cct: seq<V>)
    ensures var fig := BuildFigure(labels, brightness, cct, ParseSelection(BrightnessOption));
      && |fig.traces| == 1
      && fig.traces[0] == Trace(labels, brightness, "Brightness", "blue")
      && fig.layout == Some(Layout("Time vs Brightness", "Time (AM/PM)", "Brightness Level"))
  {
  }

  /** "CCT vs Time": one red cct trace over the labels. */
  lemma CctView<V>(labels: seq<string>, brightness: seq<V>, cct: seq<V>)
    ensures var fig := BuildFigure(labels, brightness, cct, ParseSelection(CctOption));
      && |fig.traces| == 1
      && fig.traces[0] == Trace(labels, cct, "CCT (Color Temperature)", "red")
      && fig.layout == Some(Layout("Time vs CCT", "Time (AM/PM)", "CCT (K)"))
  {
    OptionsRoundTrip(CctVsTime, CctOption);
  }

  /** "Brightness & CCT Overlapping": the brightness trace, then the cct trace, on shared labels. */
  lemma OverlappingView<V>(labels: seq<string>, brightness: seq<V>, cct: seq<V>)
    ensures var fig := BuildFigure(labels, brightness, cct, ParseSelection(OverlappingOption));
      && |fig.traces| == 2
      && fig.traces[0] == Trace(labels, brightness, "Brightness", "blue")
      && fig.traces[1] == Trace(labels, cct, "CCT (Color Temperature)", "red")
      && fig.traces[0].x == fig.traces[1].x
      && fig.layout == Some(Layout("Brightness & CCT Overlapping", "Time (AM/PM)", "Values"))
  {
    OptionsRoundTrip(Overlapping, OverlappingOption);
  }

  /**
    The script from line 21 on: project the columns, label every time value,
    and build the figure for the picked option. The labels are computed
    before the option is looked at, so an out-of-range time fails every view.
  */
  function Render<V>(data: seq<Sample<V>>, option: string): (r: Result<Figure<V>, Error>)
    ensures r.Failure? <==> exists i :: 0 <= i < |data| && !(0 <= data[i].time < MaxOffset)
    ensures r.Success? ==> (r.value.traces == [] <==> option !in Options)
    ensures r.Success? && option in Options ==> ViewOf(r.value) == ParseSelection(option)
    ensures r.Success? ==> |r.value.traces| == (if option == OverlappingOption then 2 else if option in Options then 1 else 0)
    ensures r.Success? ==> forall k :: 0 <= k < |r.value.traces| ==>
              && |r.value.traces[k].x| == |r.value.traces[k].y| == |data|
              && forall i :: 0 <= i < |data| ==>
                   && ParseLabel(r.value.traces[k].x[i]) == Some(data[i].time % MinutesPerDay)
                   && r.value.traces[k].y[i] == (if r.value.traces[k].name == BrightnessName
                                                 then data[i].brightness else data[i].cct)
  {
    var labels :- DeriveLabels(TimeColumn(data));
    LabelsReadBack(TimeColumn(data));
    ViewOfBuildFigure(labels, BrightnessColumn(data), CctColumn(data), ParseSelection(option));
    assert BrightnessName != CctName by {
      assert BrightnessName[0] != CctName[0];
    }
    Success(BuildFigure(labels, BrightnessColumn(data), CctColumn(data), ParseSelection(option)))
  }

  /** Two samples an hour apart, shown overlapping. */
  lemma OverlappingExample()
    ensures Render([Sample(0, 10, 2000), Sample(60, 50, 3000)], OverlappingOption)
         == Success(Figure([Trace(["12:00 AM", "01:00 AM"], [10, 50], "Brightness", "blue"),
                            Trace(["12:00 AM", "01:00 AM"], [2000, 3000], "CCT (Color Temperature)", "red")],
                           Some(Layout("Brightness & CCT Overlapping", "Time (AM/PM)", "Values"))))
  {
    var data := [Sample(0, 10, 2000), Sample(60, 50, 3000)];
    MorningExamples();
    assert TimeColumn(data) == [0, 60];
    assert BrightnessColumn(data) == [10, 50];
    assert CctColumn(data) == [2000, 3000];
    var times := [0, 60];
    assert AllInRange(times);
    var labels := DeriveLabels(times).value;
    assert Format12h(times[0]) == Success(labels[0]) && Format12h(times[1]) == Success(labels[1]);
    assert labels == ["12:00 AM", "01:00 AM"];
    OptionsRoundTrip(Overlapping, OverlappingOption);
  }

  /** A sample before datetime.min fails the whole render, whatever the option. */
  lemma NegativeTimeExample(option: string)
    ensures Render([Sample(0, 10, 2000), Sample(-1, 50, 3000)], option) == Failure(OverflowError)
  {
    var data := [Sample(0, 10, 2000), Sample(-1, 50, 3000)];
    var r := Render(data, option);
    assert r.Failure? && r.error.OverflowError?;
    assert r == Failure(OverflowError);
  }

  /** Picking "Brightness vs Time" renders one blue brightness trace over the dataset's labels. */
  lemma RenderBrightness<V>(data: seq<Sample<V>>, labels: seq<string>)
    requires DeriveLabels(TimeColumn(data)) == Success(labels)
    ensures Render(data, BrightnessOption)
         == Success(Figure([Trace(labels, BrightnessColumn(data), "Brightness", "blue")],
                           Some(Layout("Time vs Brightness", "Time (AM/PM)", "Brightness Level"))))
  {
    BrightnessView(labels, BrightnessColumn(data), CctColumn(data));
  }

  /** Picking "CCT vs Time" renders one red cct trace over the dataset's labels. */
  lemma RenderCct<V>(data: seq<Sample<V>>, labels: seq<string>)
    requires DeriveLabels(TimeColumn(data)) == Success(labels)
    ensures Render(data, CctOption)
         == Success(Figure([Trace(labels, CctColumn(data), "CCT (Color Temperature)", "red")],
                           Some(Layout("Time vs CCT", "Time (AM/PM)", "CCT (K)"))))
  {
    CctView(labels, BrightnessColumn(data), CctColumn(data));
  }

  /** Picking "Brightness & CCT Overlapping" renders the brightness trace, then the cct trace. */
  lemma RenderOverlapping<V>(data: seq<Sample<V>>, labels: seq<string>)
    requires DeriveLabels(TimeColumn(data)) == Success(labels)
    ensures Render(data, OverlappingOption)
         == Success(Figure([Trace(labels, BrightnessColumn(data), "Brightness", "blue"),
                            Trace(labels, CctColumn(data), "CCT (Color Temperature)", "red")],
                           Some(Layout("Brightness & CCT Overlapping", "Time (AM/PM)", "Values"))))
  {
    OverlappingView(labels, BrightnessColumn(data), CctColumn(data));
  }

  /** Any other option renders an empty figure, once the labels exist. */
  lemma RenderUnrecognised<V>(data: seq<Sample<V>>, labels: seq<string>, option: string)
    requires DeriveLabels(TimeColumn(data)) == Success(labels)
    requires option !in Options
    ensures Render(data, option) == Success(Figure([], None))
  {
  }
}
