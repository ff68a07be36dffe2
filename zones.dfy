/**
 * The restricted-area detector (BHM2.0.py lines 197-200): the zones the five
 * workers were drawn into, filtered against the restricted areas.
 */
module Zones {
  import opened Draws

  /** The zones a worker can be drawn into. */
  const AllZones: seq<string> := ["Zone A", "Zone B", "Zone C", "Zone D", "Zone E"]

  const RestrictedAreas: seq<string> := ["Zone A", "Zone C", "Zone E"]

  const WorkerCount: nat := 5

  /** `np.random.choice(AllZones, size=5)`, one draw per worker. */
  function WorkerZones(draws: seq<nat>): (zones: seq<string>)
    requires |draws| == WorkerCount
    ensures |zones| == WorkerCount
    ensures forall i :: 0 <= i < |zones| ==> zones[i] in AllZones
  {
    seq(|draws|, i requires 0 <= i < |draws| => Choice(AllZones, draws[i]))
  }

  /** `sub` is `s` with some elements left out and the rest in the same order. */
  ghost predicate IsSubsequence(sub: seq<string>, s: seq<string>)
  {
    if |sub| == 0 then true
    else if |s| == 0 then false
    else if sub[0] == s[0] then IsSubsequence(sub[1..], s[1..])
    else IsSubsequence(sub, s[1..])
  }

  /** `[zone for zone in zones if zone in restricted]`. */
  function Filter(zones: seq<string>, restricted: seq<string>): (r: seq<string>)
    ensures |r| <= |zones|
    ensures IsSubsequence(r, zones)
    ensures forall z :: z in r <==> z in zones && z in restricted
    ensures forall z :: multiset(r)[z] == if z in restricted then multiset(zones)[z] else 0
  {
    if |zones| == 0 then []
    else
      var rest := Filter(zones[1..], restricted);
      assert zones == [zones[0]] + zones[1..];
      if zones[0] in restricted then [zones[0]] + rest else rest
  }

  /** No alert is raised exactly when no worker is in a restricted zone. */
  lemma FilterEmpty(zones: seq<string>, restricted: seq<string>)
    ensures Filter(zones, restricted) == [] <==> forall i :: 0 <= i < |zones| ==> zones[i] !in restricted
  {
    var r := Filter(zones, restricted);
    if r != [] {
      assert r[0] in r;
    }
  }

  /** `restricted_alerts` for this run's worker zones. */
  function RestrictedAlerts(workerZones: seq<string>): (alerts: seq<string>)
    ensures forall z :: z in alerts <==> z in workerZones && z in RestrictedAreas
    ensures IsSubsequence(alerts, workerZones)
    ensures forall z :: multiset(alerts)[z] == if z in RestrictedAreas then multiset(workerZones)[z] else 0
  {
    Filter(workerZones, RestrictedAreas)
  }

  /** For drawn zones: at most five alerts, each one a restricted area, none containing a comma. */
  lemma DrawnAlerts(draws: seq<nat>)
    requires |draws| == WorkerCount
    ensures |RestrictedAlerts(WorkerZones(draws))| <= WorkerCount
    ensures forall i :: 0 <= i < |RestrictedAlerts(WorkerZones(draws))| ==>
              RestrictedAlerts(WorkerZones(draws))[i] in RestrictedAreas
              && ',' !in RestrictedAlerts(WorkerZones(draws))[i]
  {
    var alerts := RestrictedAlerts(WorkerZones(draws));
    forall i | 0 <= i < |alerts|
      ensures alerts[i] in RestrictedAreas && ',' !in alerts[i]
    {
      assert alerts[i] in alerts;
    }
  }
}
