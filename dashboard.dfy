/**
 * The decisions the dashboard draws from one frame and one draw of worker
 * zones (BHM2.0.py lines 159-205): the status metric of the latest reading,
 * the alerts log and the restricted-area banner. The charts, the gauge, the
 * heatmap, the map and the forecast are drawings only and are not modelled.
 */
module Dashboard {
  import opened Wrappers
  import opened Readings
  import opened Risk
  import opened Zones
  import opened Alerts
  import opened Session

  /** What the operator reads off the dashboard. */
  datatype Panel = Panel(
    status: Tier,
    statusLabel: string,
    lastUpdate: string,
    weather: string,
    alerts: seq<AlertRow>,
    restricted: seq<string>,
    banner: Notice)

  /** `df["Risk"].iloc[-1]` raises on a frame without rows; only a CSV can be empty. */
  datatype RenderError = NoReadings

  function Render(df: seq<Reading>, workerZones: seq<string>): (r: Result<Panel, RenderError>)
    ensures r.Ok? <==> |df| > 0
    ensures r.Err? ==> r.error == NoReadings
    ensures r.Ok? ==>
              var latest := df[|df| - 1];
              && (r.value.status == High <==> latest.risk > 70)
              && (r.value.status == Medium <==> 40 < latest.risk <= 70)
              && (r.value.status == Low <==> latest.risk <= 40)
              && r.value.lastUpdate == latest.timestamp
              && r.value.weather == latest.weather
              && |r.value.alerts| > 0
              && r.value.alerts[|r.value.alerts| - 1].reading == latest
              && r.value.alerts[|r.value.alerts| - 1].action == TierAction(r.value.status)
              && r.value.statusLabel == StatusLabel(r.value.status)
              && r.value.alerts == AlertsLog(df)
              && r.value.restricted == RestrictedAlerts(workerZones)
              && r.value.banner == Banner(r.value.restricted)
              && (r.value.banner.WarningBox? <==> exists i :: 0 <= i < |workerZones| && workerZones[i] in RestrictedAreas)
  {
    if |df| == 0 then Err(NoReadings)
    else
      var latest := df[|df| - 1];
      var status := Classify(latest.risk);
      var restricted := RestrictedAlerts(workerZones);
      LastRowMatchesStatus(df);
      FilterEmpty(workerZones, RestrictedAreas);
      Ok(Panel(status, StatusLabel(status), latest.timestamp, latest.weather,
               AlertsLog(df), restricted, Banner(restricted)))
  }

  /**
   * One whole script run in the simulated mode: the reading is appended, and the
   * whole dashboard is drawn from the new view, which ends with that reading.
   */
  method SimulatedRun(s: DashboardSession, generated: Reading, workerZones: seq<string>)
    returns (r: Result<Panel, RenderError>)
    modifies s
    ensures s.history == old(s.history) + [generated]
    ensures r == Render(s.View(), workerZones)
    ensures r.Ok? && r.value.status == Classify(generated.risk)
    ensures |r.value.alerts| > 0 && r.value.alerts[|r.value.alerts| - 1].reading == generated
  {
    var df, _ := s.Run(SimulatedLive, generated, None, None);
    r := Render(df.value, workerZones);
  }
}
