/**
 * The risk classifier: the status metric of the latest reading (BHM2.0.py
 * lines 161-162) and the Action column of the alerts log (lines 191-194).
 * Both use the strict thresholds `> 70` and `> 40`.
 */
module Risk {
  import opened Frame
  import opened Readings

  datatype Tier = Low | Medium | High

  datatype Action = Evacuation | Warning | Monitoring

  /** The tier of a risk score; total over all integers. */
  function Classify(risk: int): (t: Tier)
    ensures t == High <==> risk > 70
    ensures t == Medium <==> 40 < risk <= 70
    ensures t == Low <==> risk <= 40
  {
    if risk > 70 then High else if risk > 40 then Medium else Low
  }

  /** The text of the "Current Risk" metric: a coloured disc and the tier's name. */
  function StatusLabel(t: Tier): (s: string)
    ensures s == "🔴 HIGH" <==> t == High
    ensures s == "🟡 MEDIUM" <==> t == Medium
    ensures s == "🟢 LOW" <==> t == Low
  {
    match t
    case High => "🔴 HIGH"
    case Medium => "🟡 MEDIUM"
    case Low => "🟢 LOW"
  }

  /** The action one row of the alerts log recommends, with the same thresholds. */
  function ActionFor(risk: int): (a: Action)
    ensures a == Evacuation <==> risk > 70
    ensures a == Warning <==> 40 < risk <= 70
    ensures a == Monitoring <==> risk <= 40
  {
    if risk > 70 then Evacuation else if risk > 40 then Warning else Monitoring
  }

  /** The text `np.where` writes into the Action column. */
  function ActionLabel(a: Action): (s: string)
    ensures s == "🔴 Evacuation" <==> a == Evacuation
    ensures s == "🟡 Warning" <==> a == Warning
    ensures s == "🟢 Monitoring" <==> a == Monitoring
  {
    match a
    case Evacuation => "🔴 Evacuation"
    case Warning => "🟡 Warning"
    case Monitoring => "🟢 Monitoring"
  }

  /** The action each tier calls for. */
  function TierAction(t: Tier): Action
  {
    match t
    case High => Evacuation
    case Medium => Warning
    case Low => Monitoring
  }

  /** The status metric and the alerts log never disagree about a score. */
  lemma ActionMatchesTier(risk: int)
    ensures ActionFor(risk) == TierAction(Classify(risk))
  {
  }

  /** For every score, the status metric and the Action column show the same coloured disc. */
  lemma SameColour(risk: int)
    ensures StatusLabel(Classify(risk))[0] == ActionLabel(ActionFor(risk))[0]
  {
    ActionMatchesTier(risk);
  }

  /** The boundary scores fall in the lower tier. */
  lemma ClassifyBoundaries()
    ensures Classify(70) == Medium && Classify(71) == High
    ensures Classify(40) == Low && Classify(41) == Medium
  {
  }

  function Rank(t: Tier): nat
  {
    match t
    case Low => 0
    case Medium => 1
    case High => 2
  }

  /** A higher score never gets a lower tier. */
  lemma ClassifyMonotone(a: int, b: int)
    requires a <= b
    ensures Rank(Classify(a)) <= Rank(Classify(b))
  {
  }

  // ---------------------------------------------------------------------------
  // The alerts log.

  /** A row of the log: the reading as it was, the action, and the text of the Action column. */
  datatype AlertRow = AlertRow(reading: Reading, action: Action, actionText: string)

  function Row(r: Reading): AlertRow
  {
    var a := ActionFor(r.risk);
    AlertRow(r, a, ActionLabel(a))
  }

  /** The Action column added to every row, as `np.where` does column-wise. */
  function Annotate(rows: seq<Reading>): (log: seq<AlertRow>)
    ensures |log| == |rows|
    ensures forall i :: 0 <= i < |log| ==> log[i].reading == rows[i]
    ensures forall i :: 0 <= i < |log| ==> log[i].action == ActionFor(rows[i].risk)
    ensures forall i :: 0 <= i < |log| ==> log[i].actionText == ActionLabel(log[i].action)
  {
    if |rows| == 0 then [] else [Row(rows[0])] + Annotate(rows[1..])
  }

  /** `df.tail(5)` with its Action column. */
  const LogLength: nat := 5

  function AlertsLog(df: seq<Reading>): (log: seq<AlertRow>)
    ensures |log| <= LogLength && |log| <= |df|
    ensures |df| >= LogLength ==> |log| == LogLength
    ensures |df| <= LogLength ==> |log| == |df|
    ensures forall i :: 0 <= i < |log| ==> log[i].reading == df[|df| - |log| + i]
    ensures forall i :: 0 <= i < |log| ==> log[i].action == ActionFor(log[i].reading.risk)
    ensures forall i :: 0 <= i < |log| ==> log[i].actionText == ActionLabel(log[i].action)
  {
    Annotate(Tail(df, LogLength))
  }

  /** The newest row of the log recommends what the status metric shows. */
  lemma LastRowMatchesStatus(df: seq<Reading>)
    requires |df| > 0
    ensures |AlertsLog(df)| > 0
    ensures AlertsLog(df)[|AlertsLog(df)| - 1].reading == df[|df| - 1]
    ensures AlertsLog(df)[|AlertsLog(df)| - 1].action == TierAction(Classify(df[|df| - 1].risk))
  {
    var log := AlertsLog(df);
    ActionMatchesTier(log[|log| - 1].reading.risk);
  }
}
