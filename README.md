# BHOOMI rockfall dashboard: readings, risk tiers and restricted-zone alerts

A Dafny model of the decision logic of the BHOOMI Safety Interface, a
Streamlit dashboard for rockfall monitoring in a mine. Each script run of the
dashboard does four things that this project models and proves properties of:

1. **Session history and view** (`session.dfy`, `frame.dfy`). In the
   "Simulated Live Data" mode, each run appends one synthetic reading
   (`readings.dfy`, `draws.dfy`) to the session's frame `st.session_state.df`.
   The dashboard then works on the last 50 rows of that frame. The two CSV
   modes show the loaded table instead and leave the history alone.
   `DashboardSession` is a class whose `history` field `Tick` and `Run`
   update in place.
2. **Risk classifier** (`risk.dfy`). The latest reading's `Risk` becomes the
   status HIGH (> 70), MEDIUM (> 40) or LOW. Each of the last five rows gets
   the Action Evacuation, Warning or Monitoring by the same thresholds.
3. **Restricted-zone detector** (`zones.dfy`). The five workers' zones are
   filtered against Zone A, Zone C and Zone E. The filter keeps order and
   duplicates.
4. **Alert outcomes** (`alerts.dfy`, `text.dfy`). These are the banner, the
   zone-alert button and the manual alert button, with the zone list joined
   by `", "`.

`dashboard.dfy` puts these together. `Render` gives what the operator reads
off one frame. `SimulatedRun` is one whole run in the simulated mode.

The wall clock and numpy's random draws are parameters. A draw is any
natural number, reduced into the range numpy draws from
(`np.random.randint(0, 100)` therefore gives 0 to 99). The clock is an
hour/minute/second value, formatted as `%H:%M:%S`.

Facts about the code that the model keeps:
- The session history is never trimmed. Only the frame the dashboard works on
  is cut to the last 50 rows. `Session.ViewIsFifoWindow` proves this view
  equals what a FIFO window of capacity 50 would hold.
- The CSV modes leave `st.session_state.df` untouched. A later simulated run
  appends to the old history (`Session.DashboardSession.Run`).
- `np.random.randint(0, 100)` excludes 100, so generated risks lie in [0, 99].
- The restricted-zone detector keeps the workers' order and keeps duplicates.

## Model

| member | source | states |
|---|---|---|
| Frame.Tail | BHM2.0.py:57 | `tail(n)` gives the last min(n, rows) rows in arrival order: at most n, exactly n once there are n rows, and all rows when there are fewer |
| Frame.TailSnoc | BHM2.0.py:56-57 | appending one row moves the tail as a FIFO window does: the row joins at the back, and the oldest row leaves once the window is full |
| Frame.TailIsFifo | BHM2.0.py:47-57 | the last k rows of the whole history equal the contents of a FIFO window of capacity k fed every row in order |
| Draws.RandInt | BHM2.0.py:54 | `randint(low, high)` lies in [low, high) with high excluded, and every value in that range is reachable |
| Draws.Choice | BHM2.0.py:53 | `np.random.choice` returns one of the options, and every option is reachable |
| Readings.FormatTime | BHM2.0.py:50 | `strftime("%H:%M:%S")` gives eight characters with colons at positions 2 and 5 |
| Readings.ParseFormatTime | BHM2.0.py:50 | a time of day formatted as `HH:MM:SS` reads back to the same time |
| Readings.FormatParseTime | BHM2.0.py:50 | every string that reads as a time of day is exactly that time's `HH:MM:SS` format |
| Readings.Generate | BHM2.0.py:49-55 | a generated reading has risk in [0, 99], weather among Sunny/Rainy/Cloudy/Windy, and a valid `HH:MM:SS` timestamp of the given clock; vibration and slope are the given values |
| Readings.GenerateReachesAll | BHM2.0.py:53-54 | every weather label and every risk in [0, 99] is produced by some draws |
| Risk.Classify | BHM2.0.py:161-162 | HIGH iff risk > 70, MEDIUM iff 40 < risk ≤ 70, LOW iff risk ≤ 40, for every integer |
| Risk.ClassifyBoundaries | BHM2.0.py:162 | 70 is MEDIUM, 71 is HIGH, 40 is LOW, 41 is MEDIUM |
| Risk.ClassifyMonotone | BHM2.0.py:162 | a higher score never gets a lower tier |
| Risk.StatusLabel | BHM2.0.py:162 | the "Current Risk" text is "🔴 HIGH", "🟡 MEDIUM" or "🟢 LOW", each exactly for its own tier |
| Risk.ActionFor | BHM2.0.py:193-194 | Evacuation iff risk > 70, Warning iff 40 < risk ≤ 70, Monitoring iff risk ≤ 40 |
| Risk.ActionLabel | BHM2.0.py:193-194 | the Action column text is "🔴 Evacuation", "🟡 Warning" or "🟢 Monitoring", each exactly for its own action |
| Risk.ActionMatchesTier | BHM2.0.py:161-162 | the Action column and the status metric agree: Evacuation with HIGH, Warning with MEDIUM, Monitoring with LOW |
| Risk.SameColour | BHM2.0.py:162-194 | for every score, the status text and the Action column text start with the same coloured disc |
| Risk.Annotate | BHM2.0.py:193-194 | adding the Action column keeps every row's reading unchanged and in order, sets each row's action from its own risk, and writes that action's text into the column |
| Risk.AlertsLog | BHM2.0.py:192-194 | the alerts log is the last min(rows, 5) readings in arrival order, unchanged, each with the action for its risk and that action's text |
| Risk.LastRowMatchesStatus | BHM2.0.py:192-194 | the newest row of the alerts log is the current reading, and its action is the one the current status calls for |
| Zones.WorkerZones | BHM2.0.py:199 | the draw gives exactly five zones, each one of Zone A to Zone E |
| Zones.Filter | BHM2.0.py:200 | the result is an order-preserving subsequence of the worker zones, no longer than them, that holds each restricted zone as often as the workers do and nothing else |
| Zones.FilterEmpty | BHM2.0.py:200-202 | the result is empty iff no worker zone is restricted |
| Zones.RestrictedAlerts | BHM2.0.py:198-200 | a zone is alerted iff some worker is in it and it is Zone A, C or E; the alerts keep the workers' order and hold each restricted zone as often as the workers do |
| Zones.DrawnAlerts | BHM2.0.py:198-200 | for drawn zones, at most five alerts, each a restricted area whose name has no comma |
| Text.Join | BHM2.0.py:203 | `', '.join` of no parts is empty; otherwise it starts with the first part and is as long as all the parts plus two characters between each pair |
| Text.SplitJoin | BHM2.0.py:203 | a non-empty list of comma-free names joined with `", "` reads back as the same list |
| Text.SplitNeedsSpace | BHM2.0.py:203 | only `", "` separates parts: for comma-free p and q, with q not starting with a space, `p + "," + q` stays one part |
| Text.JoinSplit | BHM2.0.py:203 | for every string, joining the parts Split cuts it into gives the string back, so Split removes exactly the `", "` separators |
| Alerts.Banner | BHM2.0.py:202-205 | a warning that starts with the intrusion text iff some zone is alerted, and otherwise exactly the info "✅ No workers in restricted areas." |
| Alerts.ZoneAlertButton | BHM2.0.py:209-213 | nothing unless pressed; when pressed, a "sent" success with the zone list iff the list is non-empty, and the "no workers to alert" info otherwise |
| Alerts.ManualAlertButton | BHM2.0.py:215-217 | pressing always reports "sent", with no condition; not pressing shows nothing |
| Alerts.MessagesListZones | BHM2.0.py:203-211 | the banner and the "sent" message both list exactly the alerted zones, in order |
| Session.SourceNotice | BHM2.0.py:29-44 | no message in the simulated mode; a CSV mode shows its success message iff the table was read, otherwise the preloaded mode's not-found error or the upload mode's warning |
| Session.DashboardSession.constructor | BHM2.0.py:47-48 | a session starts with an empty history |
| Session.DashboardSession.View | BHM2.0.py:57 | the view is a suffix of the history of at most 50 rows: all rows while there are at most 50, and exactly 50 after that |
| Session.DashboardSession.Tick | BHM2.0.py:56 | the history grows by exactly the new reading at the end, the old history is an unchanged prefix, and the view moves as a FIFO window of capacity 50 |
| Session.DashboardSession.Run | BHM2.0.py:27-57 | simulated mode appends the generated reading and yields the view, which ends with it; the CSV modes leave the history unchanged and yield the loaded table, or stop when reading the preloaded file fails or nothing was uploaded; the message shown is the source notice of the mode and result |
| Session.ViewIsFifoWindow | BHM2.0.py:47-57 | the session's view is always the FIFO window of capacity 50 over every reading so far |
| Session.OldestLeavesView | BHM2.0.py:57 | once 51 readings have arrived, the first has left the view and the newest is its last row |
| Dashboard.Render | BHM2.0.py:159-205 | a frame without rows cannot be drawn; otherwise the status is the tier of the latest risk, the last-update and weather metrics are the latest reading's, the status text is that tier's label, the alerts log is the whole last-five log, the restricted list is the filter of the worker zones, the banner is the one for that list and warns iff a worker is in a restricted zone, and the last alerts-log row is the latest reading with the matching action |
| Dashboard.SimulatedRun | BHM2.0.py:46-205 | a simulated run appends the reading, and the whole panel is the one `Render` draws from the new last-50 view: it always renders, shows that reading's tier, and has that reading as the newest log row |

## Left out

- Page setup, CSS, metrics layout, the risk gauge and its 0-30-70-100 colour bands, the trend charts, the thermal heatmap, the worker map and the forecast chart: these only draw, and decide nothing.
- The quantile bands (`quantile(0.3)`, `quantile(0.7)`) and min/max of the vibration and slope columns: pandas floating-point arithmetic, used only to shade the charts.
- The normal draws for vibration and slope, and their rounding to 3 and 2 decimals: floating point. `Readings.Generate` takes the rounded values as parameters.
- CSV parsing by `pd.read_csv`: a library outside the model. `Session.DashboardSession.Run` takes the table a CSV mode would read as an `Option`. For the preloaded file, None stands for any failure of `read_csv`, since the bare `except:` at line 33 turns every one of them into the same not-found error and stop. For the upload mode, None means nothing was uploaded. A malformed upload, which raises inside `read_csv`, is not modelled.
- A CSV table that lacks one of the columns Timestamp, Vibration, Slope, Weather or Risk: such a table cannot be written as a `seq<Reading>`, so the `KeyError` it raises at line 161, 166, 167, 179 or 185 is not modelled. Neither are values of the wrong type in a CSV column.
- The 60-second autorefresh timer: an external trigger. In the model, each call of `Run` is one refresh.
- `st.stop()` and Streamlit's rerun model: a run that stops is modelled by `Run` returning `Err`.
- `Session.DashboardSession.constructor`: the source creates the empty frame lazily on the first simulated run rather than at session start. This is equivalent, since nothing reads the frame before then.
- The labels of the buttons, headings and metrics other than "Current Risk": they are drawn, not decided. The status text, the Action column text, the data-source messages and the zone and manual alert messages are kept as the source writes them.
- BHM.py: it is cut off in the middle of a string and holds no logic of its own.
