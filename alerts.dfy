/**
 * What the dashboard tells the operator about restricted areas: the banner
 * under the detector (BHM2.0.py lines 202-205), the zone-alert button (209-213)
 * and the manual alert button (215-217). Sending is simulated: "sent" is the
 * success message and nothing else happens.
 */
module Alerts {
  import opened Wrappers
  import opened Text

  /** The kinds of Streamlit message box the dashboard shows. */
  datatype Notice = WarningBox(text: string) | InfoBox(text: string) | SuccessBox(text: string) | ErrorBox(text: string)

  const IntrusionPrefix: string := "⚠ Restricted Area Alert! Workers detected in: "
  const NoIntrusionText: string := "✅ No workers in restricted areas."
  const ZoneAlertPrefix: string := "✅ Alert sent to workers in restricted zones: "
  const NobodyToAlertText: string := "ℹ No workers currently near restricted areas to alert."
  const ManualAlertText: string := "✅ Alert sent to all registered numbers! (Simulated in demo mode)"

  /** The banner: a warning naming the zones when there is an intrusion, otherwise an all-clear. */
  function Banner(alerts: seq<string>): (n: Notice)
    ensures n.WarningBox? <==> |alerts| > 0
    ensures n.InfoBox? <==> |alerts| == 0
    ensures |alerts| == 0 ==> n == InfoBox(NoIntrusionText)
    ensures n.WarningBox? ==> |n.text| >= |IntrusionPrefix| && n.text[..|IntrusionPrefix|] == IntrusionPrefix
  {
    if |alerts| > 0 then WarningBox(IntrusionPrefix + Join(alerts)) else InfoBox(NoIntrusionText)
  }

  /**
   * The zone-alert button: nothing unless pressed; when pressed, "sent" with the
   * zones if there are any, otherwise that there is nobody to alert.
   */
  function ZoneAlertButton(pressed: bool, alerts: seq<string>): (n: Option<Notice>)
    ensures n.Some? <==> pressed
    ensures pressed ==> (n.value.SuccessBox? <==> |alerts| > 0)
    ensures pressed && |alerts| == 0 ==> n.value == InfoBox(NobodyToAlertText)
    ensures pressed && |alerts| > 0 ==>
              |n.value.text| >= |ZoneAlertPrefix| && n.value.text[..|ZoneAlertPrefix|] == ZoneAlertPrefix
  {
    if !pressed then None
    else if |alerts| > 0 then Some(SuccessBox(ZoneAlertPrefix + Join(alerts)))
    else Some(InfoBox(NobodyToAlertText))
  }

  /** The manual alert has no condition: pressing it always reports "sent". */
  function ManualAlertButton(pressed: bool): (n: Option<Notice>)
    ensures n.Some? <==> pressed
    ensures pressed ==> n.value.SuccessBox? && n.value.text == ManualAlertText
  {
    if pressed then Some(SuccessBox(ManualAlertText)) else None
  }

  /** Both the banner and the "sent" message list exactly the zones alerted, in order. */
  lemma MessagesListZones(alerts: seq<string>)
    requires |alerts| > 0
    requires forall i :: 0 <= i < |alerts| ==> ',' !in alerts[i]
    ensures Split(Banner(alerts).text[|IntrusionPrefix|..]) == alerts
    ensures Split(ZoneAlertButton(true, alerts).value.text[|ZoneAlertPrefix|..]) == alerts
  {
    SplitJoin(alerts);
    assert Banner(alerts).text[|IntrusionPrefix|..] == Join(alerts);
    assert ZoneAlertButton(true, alerts).value.text[|ZoneAlertPrefix|..] == Join(alerts);
  }
}
