# Circadian plot: a Dafny model

The circadian dashboard loads a JSON array of samples (`time` in minutes,
`brightness`, `cct`), turns every `time` into a 12-hour clock label, and
draws one of three Plotly views picked in a Streamlit select box:
"Brightness vs Time", "CCT vs Time" or "Brightness & CCT Overlapping".
This project models the script's non-I/O logic as pure functions and proves
what the labels and figures look like.

- `wrappers.dfy` — `Option` and `Result`. A `Failure` stands for the Python
  exception the script would raise.
- `clock_label.dfy` (module `ClockLabel`) covers
  `(datetime.min + timedelta(minutes=t)).strftime("%I:%M %p")`. The addition
  is modelled on day ordinals: it raises OverflowError below
  `datetime.min`, and also past `datetime.max`. The three strftime
  conversions follow the C locale. `ParseLabel` is the reader's side: it
  maps a label in the pattern `(0[1-9]|1[0-2]):[0-5][0-9] (AM|PM)` back to
  the minute of the day it names. The two directions are proved inverse.
- `dataset.dfy` (module `Dataset`) covers the three column projections,
  with `Rows` as their inverse, and the label list.
- `chart.dfy` (module `Chart`) covers the select-box options, the
  three-way figure construction, and `Render`, the whole pipeline from
  dataset and picked option to figure.

Nothing in the script limits `time` to one day. The code does not
reject `time >= 1440`: the date part of the sum advances and is not printed,
so labels wrap daily. The model follows the code here, up to the real
overflow at 3652059 days, the ordinal of 9999-12-31.

## Model

| member | source | states |
|---|---|---|
| ClockLabel.AddMinutesToMin | circadian-analytics/plot_circadian/plotcircadian.py:26-27 | Adding t minutes to datetime.min succeeds exactly when 0 <= t < 3652059*1440. On success the datetime is valid and lies exactly t minutes after datetime.min. |
| ClockLabel.MinuteOfDayIsOffsetModDay | circadian-analytics/plot_circadian/plotcircadian.py:27 | A valid datetime's clock reads its offset from datetime.min modulo 1440. |
| ClockLabel.Hour12 | circadian-analytics/plot_circadian/plotcircadian.py:27 | %I gives an hour in 1..12 that is congruent to the 24-hour hour modulo 12. |
| ClockLabel.AmPm | circadian-analytics/plot_circadian/plotcircadian.py:27 | %p is two characters ending in 'M'. It starts with 'A' exactly before hour 12 and with 'P' exactly from hour 12 on. |
| ClockLabel.TwoDigits | circadian-analytics/plot_circadian/plotcircadian.py:27 | A zero-padded field is two decimal digits whose value is the number printed. |
| ClockLabel.Strftime12h | circadian-analytics/plot_circadian/plotcircadian.py:27 | The "%I:%M %p" string of a datetime shows that datetime's minute of the day, digit by digit: 8 characters "HH:MM XM", hour field 01..12, minute field equal to the minute, suffix AM before 12:00 and PM after. |
| ClockLabel.Format12h | circadian-analytics/plot_circadian/plotcircadian.py:26-27 | A label fails (OverflowError) exactly for negative offsets and offsets past datetime.max. Otherwise it shows t mod 1440 digit by digit: minute field t mod 60, AM exactly when t mod 1440 < 720. |
| ClockLabel.ParseLabel | circadian-analytics/plot_circadian/plotcircadian.py:27 | A string reads as a minute of the day exactly when it matches the label pattern, and the minute read is below 1440. |
| ClockLabel.ParseFormat | circadian-analytics/plot_circadian/plotcircadian.py:26-27 | Reading the label of any in-range offset t gives back t mod 1440. |
| ClockLabel.FormatParse | circadian-analytics/plot_circadian/plotcircadian.py:27 | Every string in the label pattern is the label of the minute it reads as, so labels and minutes of the day are in one-to-one correspondence. |
| ClockLabel.FormatMatchesPattern | circadian-analytics/plot_circadian/plotcircadian.py:27 | Every label produced is in the label pattern: hour 01 to 12, a colon, minute 00 to 59, a space, then AM or PM. |
| ClockLabel.SameLabelIffSameMinuteOfDay | circadian-analytics/plot_circadian/plotcircadian.py:26-27 | Two in-range offsets get the same label if and only if they are congruent modulo 1440. |
| ClockLabel.LabelWrapsDaily | circadian-analytics/plot_circadian/plotcircadian.py:26-27 | For an in-range offset, Format12h(t) == Format12h(t mod 1440): the date rolled into is not printed. |
| ClockLabel.MorningExamples | circadian-analytics/plot_circadian/plotcircadian.py:27 | 0, 59, 60 and 719 give "12:00 AM", "12:59 AM", "01:00 AM" and "11:59 AM". |
| ClockLabel.AfternoonExamples | circadian-analytics/plot_circadian/plotcircadian.py:27 | 720, 780 and 1439 give "12:00 PM", "01:00 PM" and "11:59 PM". |
| ClockLabel.RangeEdgeExamples | circadian-analytics/plot_circadian/plotcircadian.py:26-27 | 1440 gives "12:00 AM" and the last representable minute gives "11:59 PM". -1 and the first minute past datetime.max raise OverflowError. |
| Dataset.TimeColumn | circadian-analytics/plot_circadian/plotcircadian.py:21 | The time column has one entry per sample, and entry i is sample i's time. |
| Dataset.BrightnessColumn | circadian-analytics/plot_circadian/plotcircadian.py:22 | The brightness column has one entry per sample, and entry i is sample i's brightness. |
| Dataset.CctColumn | circadian-analytics/plot_circadian/plotcircadian.py:23 | The cct column has one entry per sample, and entry i is sample i's cct. |
| Dataset.ColumnsZipBack | circadian-analytics/plot_circadian/plotcircadian.py:21-23 | Zipping the three columns back together gives the dataset, so the projection loses nothing and keeps order. |
| Dataset.RowsUnzip | circadian-analytics/plot_circadian/plotcircadian.py:21-23 | Projecting zipped rows gives back the three columns that went in. |
| Dataset.DeriveLabels | circadian-analytics/plot_circadian/plotcircadian.py:26-27 | The label list exists exactly when every time is in range. It is then as long as the time column, and label i is the label of time i. |
| Dataset.LabelsReadBack | circadian-analytics/plot_circadian/plotcircadian.py:26-27 | Label i reads back as time i mod 1440. |
| Chart.ParseSelection | circadian-analytics/plot_circadian/plotcircadian.py:42-72 | An option is unrecognised exactly when it is not one of the three select-box strings, and it is then kept as given. A recognised view is the one whose select-box text is the option. |
| Chart.OptionText | circadian-analytics/plot_circadian/plotcircadian.py:34-37 | Every recognised view has a text among the select-box options. |
| Chart.OptionsRoundTrip | circadian-analytics/plot_circadian/plotcircadian.py:34-37 | Option text and view are inverse: each option picks its own view, and each view is named by its own option. |
| Chart.BuildFigure | circadian-analytics/plot_circadian/plotcircadian.py:40-92 | The figure has no traces and no layout exactly for an unrecognised option. Every layout has x-axis title "Time (AM/PM)". Every trace has the labels as x and is either the blue brightness trace or the red cct trace. |
| Chart.ViewOfBuildFigure | circadian-analytics/plot_circadian/plotcircadian.py:40-92 | The titles of the three views are distinct: a figure's title gives back the recognised view it was built for, and no title is read as a view for an unrecognised option. |
| Chart.BrightnessView | circadian-analytics/plot_circadian/plotcircadian.py:42-55 | "Brightness vs Time" gives exactly one trace: labels against brightness, named "Brightness", coloured blue. Titles are "Time vs Brightness", "Time (AM/PM)" and "Brightness Level". |
| Chart.CctView | circadian-analytics/plot_circadian/plotcircadian.py:57-70 | "CCT vs Time" gives exactly one trace: labels against cct, named "CCT (Color Temperature)", coloured red. Titles are "Time vs CCT", "Time (AM/PM)" and "CCT (K)". |
| Chart.OverlappingView | circadian-analytics/plot_circadian/plotcircadian.py:72-92 | "Brightness & CCT Overlapping" gives two traces, brightness first and cct second, sharing the same x labels. Titles are "Brightness & CCT Overlapping", "Time (AM/PM)" and "Values". |
| Chart.Render | circadian-analytics/plot_circadian/plotcircadian.py:21-92 | Rendering fails exactly when some sample's time is out of range, whatever the option. Otherwise the figure has no traces exactly for an option outside the select box, two traces for the overlapping view and one for the others, and its title names the picked view. Every trace has one x and one y per sample: x i reads back as time i mod 1440, and y i is sample i's brightness or cct according to the trace name. |
| Chart.RenderBrightness | circadian-analytics/plot_circadian/plotcircadian.py:21-55 | With every time in range, "Brightness vs Time" renders exactly one blue "Brightness" trace (labels against the brightness column) under the titles "Time vs Brightness", "Time (AM/PM)" and "Brightness Level". |
| Chart.RenderCct | circadian-analytics/plot_circadian/plotcircadian.py:21-70 | With every time in range, "CCT vs Time" renders exactly one red "CCT (Color Temperature)" trace (labels against the cct column) under the titles "Time vs CCT", "Time (AM/PM)" and "CCT (K)". |
| Chart.RenderOverlapping | circadian-analytics/plot_circadian/plotcircadian.py:21-92 | With every time in range, "Brightness & CCT Overlapping" renders the brightness trace and then the cct trace over the same labels, under the titles "Brightness & CCT Overlapping", "Time (AM/PM)" and "Values". |
| Chart.RenderUnrecognised | circadian-analytics/plot_circadian/plotcircadian.py:40-92 | With every time in range, any other option renders `go.Figure()` untouched: no traces and no layout. |
| Chart.OverlappingExample | circadian-analytics/plot_circadian/plotcircadian.py:21-92 | Samples (0, 10, 2000) and (60, 50, 3000) shown overlapping give x labels ["12:00 AM", "01:00 AM"], with ys [10, 50] then [2000, 3000]. |
| Chart.NegativeTimeExample | circadian-analytics/plot_circadian/plotcircadian.py:26-27 | A sample at minute -1 makes rendering raise OverflowError for every option. |

## Left out

- Loading `circadian.json` and the missing-file message with `st.stop()` (lines 9-18): file I/O and Streamlit control flow. The dataset is an input sequence of samples instead.
- A JSON entry without a `time`, `brightness` or `cct` key (a KeyError at lines 21-23) cannot be expressed: a `Sample` always has all three fields.
- Streamlit calls (`st.title`, `st.write`, `st.selectbox`, `st.plotly_chart`): UI plumbing. The select box only supplies the option string that `Render` takes.
- Plotly rendering and the cosmetic fields `mode`, `hoverinfo` and `xaxis=dict(tickangle=-45)`: they belong to a foreign library and carry no behaviour here.
- Fractional minute values: `timedelta` accepts floats and `%M` drops the seconds. `time` is an integer here. Brightness and cct are a type parameter, because they are only copied.
- Locale dependence of `%p`: the C locale's "AM"/"PM" is assumed.
- `timedelta`'s own limit of 999999999 days is not modelled separately. Any offset that large also overflows the addition to `datetime.min`, with the same OverflowError.
