/**
 * The session's reading history and the frame the dashboard works on
 * (BHM2.0.py lines 27-57). In the simulated mode every script run appends one
 * reading to `st.session_state.df` and the dashboard shows its last 50 rows;
 * the two CSV modes show the loaded table and leave the history alone. Nothing
 * removes a row from the history, and switching modes does not clear it.
 */
module Session {
  import opened Wrappers
  import opened Frame
  import opened Readings
  import opened Alerts

  /** The three choices of the data-source radio button. */
  datatype Mode = SimulatedLive | PreloadedCsv | UploadCsv

  /** Why a run stops before the dashboard is drawn. */
  datatype SourceError = PreloadedNotFound | NoUpload

  const PreloadedText: string := "✅ Preloaded CSV loaded successfully!"
  const PreloadedMissingText: string := "⚠ Preloaded file 'mine_sensor_data.csv' not found."
  const UploadedText: string := "✅ Uploaded CSV loaded successfully!"
  const NoUploadText: string := "Please upload a CSV to continue."

  /**
   * The message a run shows about its data source: none in the simulated mode,
   * a success when a CSV table was read, and an error or a warning when the run stops.
   */
  function SourceNotice(mode: Mode, df: Result<seq<Reading>, SourceError>): (n: Option<Notice>)
    ensures n.None? <==> mode == SimulatedLive
    ensures mode != SimulatedLive ==> (n.value.SuccessBox? <==> df.Ok?)
    ensures mode == PreloadedCsv ==>
              n.value == if df.Ok? then SuccessBox(PreloadedText) else ErrorBox(PreloadedMissingText)
    ensures mode == UploadCsv ==>
              n.value == if df.Ok? then SuccessBox(UploadedText) else WarningBox(NoUploadText)
  {
    match mode
    case SimulatedLive => None
    case PreloadedCsv => Some(if df.Ok? then SuccessBox(PreloadedText) else ErrorBox(PreloadedMissingText))
    case UploadCsv => Some(if df.Ok? then SuccessBox(UploadedText) else WarningBox(NoUploadText))
  }

  /** The number of rows the simulated mode shows: `tail(50)`. */
  const ViewLength: nat := 50

  class DashboardSession {
    /** `st.session_state.df`: every simulated reading of this session, oldest first. */
    var history: seq<Reading>

    /**
     * A new session. The source creates the empty frame on the first simulated
     * run; since nothing else reads or writes it before then, starting empty is
     * the same.
     */
    constructor ()
      ensures history == []
    {
      history := [];
    }

    /** `st.session_state.df.tail(50)`. */
    function View(): (v: seq<Reading>)
      reads this
      ensures |v| <= ViewLength
      ensures IsSuffix(v, history)
      ensures |history| >= ViewLength ==> |v| == ViewLength
      ensures |history| <= ViewLength ==> v == history
    {
      Tail(history, ViewLength)
    }

    /**
     * `pd.concat([st.session_state.df, new_row])`: the history grows by the one
     * reading, and the view moves as a FIFO window of capacity 50 would.
     */
    method Tick(r: Reading)
      modifies this
      ensures history == old(history) + [r]
      ensures View() == Push(old(View()), r, ViewLength)
    {
      TailSnoc(history, r, ViewLength);
      history := history + [r];
    }

    /**
     * One script run in the given mode. `generated` is the reading the simulated
     * source generates on this run; `preloaded` and `uploaded` are the tables the
     * CSV modes would read: None when reading the preloaded file fails for any
     * reason, or when nothing was uploaded.
     */
    method Run(mode: Mode, generated: Reading, preloaded: Option<seq<Reading>>, uploaded: Option<seq<Reading>>)
      returns (df: Result<seq<Reading>, SourceError>, notice: Option<Notice>)
      modifies this
      ensures notice == SourceNotice(mode, df)
      ensures mode == SimulatedLive ==> history == old(history) + [generated] && df == Ok(View())
      ensures mode == SimulatedLive ==> |df.value| > 0 && df.value[|df.value| - 1] == generated
      ensures mode != SimulatedLive ==> history == old(history)
      ensures mode == PreloadedCsv ==>
                df == if preloaded.Some? then Ok(preloaded.value) else Err(PreloadedNotFound)
      ensures mode == UploadCsv ==>
                df == if uploaded.Some? then Ok(uploaded.value) else Err(NoUpload)
    {
      match mode {
        case PreloadedCsv =>
          df := if preloaded.Some? then Ok(preloaded.value) else Err(PreloadedNotFound);
        case UploadCsv =>
          df := if uploaded.Some? then Ok(uploaded.value) else Err(NoUpload);
        case SimulatedLive =>
          Tick(generated);
          df := Ok(View());
      }
      notice := SourceNotice(mode, df);
    }
  }

  /** The simulated view is always the FIFO window of capacity 50 over the whole history. */
  lemma ViewIsFifoWindow(s: DashboardSession)
    ensures s.View() == Fifo(s.history, ViewLength)
  {
    TailIsFifo(s.history, ViewLength);
  }

  /** Once 51 readings have arrived, the first one has left the view and the newest is its last row. */
  lemma OldestLeavesView(history: seq<Reading>)
    requires |history| == ViewLength + 1
    ensures Tail(history, ViewLength) == history[1..]
    ensures Tail(history, ViewLength)[ViewLength - 1] == history[ViewLength]
  {
  }
}
