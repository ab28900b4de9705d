/**
  The dataset of the circadian plot and the parallel columns the script
  projects out of it: `time`, `brightness` and `cct` of every entry, and the
  clock label of every `time`.

  Brightness and CCT values are only ever copied into the chart, so their
  type is a parameter.
*/
module Dataset {
  import opened Wrappers
  import opened ClockLabel

  /** One entry of the JSON array: a minute offset and the two measurements taken then. */
  datatype Sample<V> = Sample(time: int, brightness: V, cct: V)

  /** `[entry["time"] for entry in data]` */
  function TimeColumn<V>(data: seq<Sample<V>>): (col: seq<int>)
    ensures |col| == |data|
    ensures forall i :: 0 <= i < |data| ==> col[i] == data[i].time
  {
    if data == [] then [] else [data[0].time] + TimeColumn(data[1..])
  }

  /** `[entry["brightness"] for entry in data]` */
  function BrightnessColumn<V>(data: seq<Sample<V>>): (col: seq<V>)
    ensures |col| == |data|
    ensures forall i :: 0 <= i < |data| ==> col[i] == data[i].brightness
  {
    if data == [] then [] else [data[0].brightness] + BrightnessColumn(data[1..])
  }

  /** `[entry["cct"] for entry in data]` */
  function CctColumn<V>(data: seq<Sample<V>>): (col: seq<V>)
    ensures |col| == |data|
    ensures forall i :: 0 <= i < |data| ==> col[i] == data[i].cct
  {
    if data == [] then [] else [data[0].cct] + CctColumn(data[1..])
  }

  /** Reassembles entries from three parallel columns: the inverse of the projections. */
  function Rows<V>(times: seq<int>, brightness: seq<V>, cct: seq<V>): (data: seq<Sample<V>>)
    requires |times| == |brightness| == |cct|
  {
    seq(|times|, i requires 0 <= i < |times| => Sample(times[i], brightness[i], cct[i]))
  }

  /** Projecting the three columns loses nothing: they zip back into the dataset. */
  lemma {:induction false} ColumnsZipBack<V>(data: seq<Sample<V>>)
    ensures Rows(TimeColumn(data), BrightnessColumn(data), CctColumn(data)) == data
  {
  }

  /** Columns of zipped rows are the columns that went in. */
  lemma {:induction false} RowsUnzip<V>(times: seq<int>, brightness: seq<V>, cct: seq<V>)
    requires |times| == |brightness| == |cct|
    ensures TimeColumn(Rows(times, brightness, cct)) == times
    ensures BrightnessColumn(Rows(times, brightness, cct)) == brightness
    ensures CctColumn(Rows(times, brightness, cct)) == cct
  {
  }

  /** Every offset can be added to datetime.min. */
  ghost predicate AllInRange(times: seq<int>) {
    forall i :: 0 <= i < |times| ==> 0 <= times[i] < MaxOffset
  }

  /**
    The two comprehensions of lines 26-27: the label of every time value, in
    order. The first value the conversion rejects raises OverflowError, and
    no list is produced.
  */
  function DeriveLabels(times: seq<int>): (r: Result<seq<string>, Error>)
    ensures r.Success? <==> AllInRange(times)
    ensures r.Success? ==> |r.value| == |times|
    ensures r.Success? ==> forall i :: 0 <= i < |times| ==> Format12h(times[i]) == Success(r.value[i])
  {
    if times == [] then
      Success([])
    else
      var head :- Format12h(times[0]);
      var tail :- DeriveLabels(times[1..]);
      Success([head] + tail)
  }

  /** Every derived label reads back as the minute of the day of its time value. */
  lemma {:induction false} LabelsReadBack(times: seq<int>)
    requires DeriveLabels(times).Success?
    ensures forall i :: 0 <= i < |times| ==>
              ParseLabel(DeriveLabels(times).value[i]) == Some(times[i] % MinutesPerDay)
  {
    forall i | 0 <= i < |times|
      ensures ParseLabel(DeriveLabels(times).value[i]) == Some(times[i] % MinutesPerDay)
    {
      ParseFormat(times[i]);
    }
  }
}
