/**
 * The application shell: which source the roster is loaded from, the state
 * of that load as the page shows it, and the history of the latest winners.
 */
module AppModel {
  import opened Models
  import opened WheelDataModel

  /** The history keeps this many of the latest winners. */
  const HISTORY_LIMIT: nat := 5

  /** Shown when a failed load carries no message of its own. */
  const DEFAULT_ERROR_MESSAGE: string := "Сервер не отвечает или произошла ошибка сети."

  datatype LoadStatus = Loading | Loaded | Error

  /** What the page shows about a failed load: a message and the address asked. */
  datatype LoadError = LoadError(message: string, url: Option<string>)

  datatype WheelDataState = WheelDataState(status: LoadStatus, items: seq<WheelItem>, error: Option<LoadError>)

  /**
   * How a load ended: with a roster, or with an error whose message may be
   * missing (an absent or empty message counts as none).
   */
  datatype LoadOutcome = Fetched(items: seq<WheelItem>) | Failed(message: Option<string>)

  /** The state shown before any load has ended. */
  const INITIAL_DATA_STATE: WheelDataState := WheelDataState(Loading, [], None)

  /** The other source. */
  function Toggled(s: DataSource): (t: DataSource)
    ensures t != s
  {
    if s == Api then Test else Api
  }

  /** Toggling twice returns to the source one started with. */
  lemma ToggleTwice(s: DataSource)
    ensures Toggled(Toggled(s)) == s
  {
  }

  /** The message shown for a failure: its own when non-empty, else the default. */
  function ErrorMessage(message: Option<string>): (m: string)
    ensures |m| > 0
    ensures message.Some? && |message.value| > 0 ==> m == message.value
    ensures message.None? || |message.value| == 0 ==> m == DEFAULT_ERROR_MESSAGE
  {
    if message.Some? && |message.value| > 0 then message.value else DEFAULT_ERROR_MESSAGE
  }

  /**
   * The state shown once a load ends: the roster and no error when it was
   * fetched; an empty roster and an error naming `apiUrl` when it failed.
   */
  function DataStateOf(outcome: LoadOutcome, apiUrl: string): (st: WheelDataState)
    ensures st.status != Loading
    ensures st.status == Loaded <==> outcome.Fetched?
    ensures st.status == Loaded ==> st.items == outcome.items && st.error == None
    ensures st.status == Error ==> st.items == [] && st.error.Some?
    ensures st.status == Error ==> st.error.value.url == Some(apiUrl) && |st.error.value.message| > 0
    ensures outcome.Failed? ==> st.error == Some(LoadError(ErrorMessage(outcome.message), Some(apiUrl)))
  {
    match outcome
    case Fetched(items) => WheelDataState(Loaded, items, None)
    case Failed(message) => WheelDataState(Error, [], Some(LoadError(ErrorMessage(message), Some(apiUrl))))
  }

  // ---------------------------------------------------------------------
  // The winners' history.
  // ---------------------------------------------------------------------

  /** The history after `winner`: the winner first, then the older entries, at most five. */
  function PushWinner(history: seq<WheelItem>, winner: WheelItem): (h: seq<WheelItem>)
    ensures |h| == if |history| + 1 < HISTORY_LIMIT then |history| + 1 else HISTORY_LIMIT
    ensures h[0] == winner
    ensures forall i :: 1 <= i < |h| ==> h[i] == history[i - 1]
  {
    var newHistory := [winner] + history;
    newHistory[..Min(HISTORY_LIMIT, |newHistory|)]
  }

  function Reversed(s: seq<WheelItem>): (r: seq<WheelItem>)
    ensures |r| == |s|
    ensures forall i :: 0 <= i < |s| ==> r[i] == s[|s| - 1 - i]
  {
    if |s| == 0 then [] else Reversed(s[1..]) + [s[0]]
  }

  /** The history after the winners `winners`, in the order they were announced. */
  function PushAll(history: seq<WheelItem>, winners: seq<WheelItem>): seq<WheelItem>
    decreases |winners|
  {
    if |winners| == 0 then history else PushAll(PushWinner(history, winners[0]), winners[1..])
  }

  /**
   * After any run of winners the history is the latest ones, newest first,
   * followed by the older history, cut to five. (The history is never
   * longer than five, as AppComponent.Valid keeps.)
   */
  lemma {:induction false} PushAllKeepsLatest(history: seq<WheelItem>, winners: seq<WheelItem>)
    requires |history| <= HISTORY_LIMIT
    ensures PushAll(history, winners) ==
      (Reversed(winners) + history)[..Min(HISTORY_LIMIT, |winners| + |history|)]
    decreases |winners|
  {
    if |winners| == 0 {
      assert Reversed(winners) + history == history;
    } else {
      var w := winners[0];
      var rest := winners[1..];
      var pushed := PushWinner(history, w);
      PushAllKeepsLatest(pushed, rest);
      var lhs := (Reversed(rest) + pushed)[..Min(HISTORY_LIMIT, |rest| + |pushed|)];
      var rhs := (Reversed(winners) + history)[..Min(HISTORY_LIMIT, |winners| + |history|)];
      assert Reversed(winners) == Reversed(rest) + [w];
      assert |lhs| == |rhs|;
      forall i | 0 <= i < |lhs|
        ensures lhs[i] == rhs[i]
      {
        if i < |rest| {
        } else if i == |rest| {
        } else {
          assert lhs[i] == pushed[i - |rest|];
          assert rhs[i] == history[i - |rest| - 1];
        }
      }
    }
  }

  /** The shell's own state. */
  class AppComponent {
    var dataSource: DataSource
    var winnersHistory: seq<WheelItem>
    var dataState: WheelDataState
    /** A load for the current source has been started and has not ended. */
    var loadPending: bool
    const apiUrl: string

    ghost predicate Valid()
      reads this
    {
      |winnersHistory| <= HISTORY_LIMIT
    }

    /** The page starts on the test roster, loading, with an empty history. */
    constructor ()
      ensures Valid()
      ensures dataSource == Test && winnersHistory == []
      ensures dataState == INITIAL_DATA_STATE && loadPending
      ensures apiUrl == API_URL
    {
      dataSource := Test;
      winnersHistory := [];
      dataState := INITIAL_DATA_STATE;
      loadPending := true;
      apiUrl := API_URL;
    }

    /**
     * Switch to the other source. A load for it starts and replaces any load
     * still running; the state shown stays as it was until that load ends.
     */
    method ToggleDataSource()
      modifies this`dataSource, this`loadPending
      ensures dataSource == Toggled(old(dataSource)) && loadPending
    {
      dataSource := Toggled(dataSource);
      loadPending := true;
    }

    /** The running load ends with `outcome`; an ended or replaced load shows nothing. */
    method LoadEnded(outcome: LoadOutcome) returns (fired: bool)
      modifies this`dataState, this`loadPending
      ensures fired == old(loadPending)
      ensures fired ==> dataState == DataStateOf(outcome, apiUrl) && !loadPending
      ensures !fired ==> dataState == old(dataState) && loadPending == old(loadPending)
    {
      fired := loadPending;
      if fired {
        dataState := DataStateOf(outcome, apiUrl);
        loadPending := false;
      }
    }

    /** Record the winner at the head of the history, keeping the five latest. */
    method AddToHistory(winner: WheelItem)
      requires Valid()
      modifies this`winnersHistory
      ensures Valid()
      ensures winnersHistory == PushWinner(old(winnersHistory), winner)
    {
      winnersHistory := PushWinner(winnersHistory, winner);
    }
  }
}
