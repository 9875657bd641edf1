/**
 * The pure logic of the Bluetooth quick-settings tile: how an adapter state
 * reported by the OS becomes what the tile shows, which command a tap issues,
 * and what running that command does to the tile.
 */
module BluetoothTile {
  import opened Wrappers
  import KotlinText

  /** A Kotlin `Int`. */
  type Int32 = x: int | -0x8000_0000 <= x < 0x8000_0000

  // Constants of android.bluetooth.BluetoothAdapter.
  const STATE_OFF: Int32 := 10
  const STATE_TURNING_ON: Int32 := 11
  const STATE_ON: Int32 := 12
  const STATE_TURNING_OFF: Int32 := 13
  const ERROR: Int32 := -0x8000_0000
  const ACTION_STATE_CHANGED: string := "android.bluetooth.adapter.action.STATE_CHANGED"
  const EXTRA_STATE: string := "android.bluetooth.adapter.extra.STATE"

  const UNEXPECTED_STATE: string := "Unexpected state: "
  const CAUGHT: string := "Caught: "

  /** The activation flag of a quick-settings tile. */
  datatype TileState = Active | Inactive | Unavailable

  /** What the tile displays: its activation flag and its subtitle. */
  datatype TileView = TileView(state: TileState, subtitle: string)

  datatype BluetoothAdapter = BluetoothAdapter(state: Int32)
  datatype BluetoothManager = BluetoothManager(adapter: Option<BluetoothAdapter>)

  /** A broadcast intent: its action (possibly null) and its integer extras. */
  datatype Intent = Intent(action: Option<string>, extras: map<string, Int32>)

  /** How the `su -c "cmd bluetooth_manager ..."` subprocess ended, as seen by the tile. */
  datatype ProcessOutcome =
    | StartFailed(className: string)  // starting the process threw this exception; nothing runs
    | TimedOut                        // still running after the one-second wait
    | Exited(code: Int32)             // finished in time; 0 is success
    | Threw(className: string)        // the process started, then waiting or reading its output threw
  {
    /** The tile's catch block ran. */
    predicate Caught() {
      StartFailed? || Threw?
    }

    /** A process was started. */
    predicate Started() {
      !StartFailed?
    }
  }

  /** Observable steps, in the order they happen. */
  datatype Event =
    | Registered              // the state-change receiver was registered
    | Unregistered            // the receiver was unregistered
    | Published(view: TileView)  // updateTile() pushed this view to the system UI
    | Launched(command: string)  // a subprocess for this command was started

  predicate IsKnownState(s: Option<Int32>) {
    s == Some(STATE_ON) || s == Some(STATE_OFF) || s == Some(STATE_TURNING_ON) || s == Some(STATE_TURNING_OFF)
  }

  predicate IsCommand(command: string) {
    command == "enable" || command == "disable"
  }

  /** The tile shown for a reported adapter state (null when no manager or adapter). */
  function TileFor(s: Option<Int32>): (r: TileView)
    ensures r.state == Active <==> s == Some(STATE_ON) || s == Some(STATE_TURNING_ON)
    ensures r.state == Inactive <==> s == Some(STATE_OFF) || s == Some(STATE_TURNING_OFF)
    ensures r.state == Unavailable <==> !IsKnownState(s)
    ensures r.state == Unavailable ==> r.subtitle == UNEXPECTED_STATE + KotlinText.NullableToString(s)
  {
    if s == Some(STATE_ON) then TileView(Active, "on")
    else if s == Some(STATE_OFF) then TileView(Inactive, "off")
    else if s == Some(STATE_TURNING_ON) then TileView(Active, "turning on")
    else if s == Some(STATE_TURNING_OFF) then TileView(Inactive, "turning off")
    else TileView(Unavailable, UNEXPECTED_STATE + KotlinText.NullableToString(s))
  }

  /**
   * Reads back from a tile view the adapter state it was rendered from:
   * Some(s) when the view is what TileFor(s) shows, None when no state
   * renders to it.
   */
  function ReportedStateOf(view: TileView): Option<Option<Int32>> {
    match view.state
    case Active =>
      if view.subtitle == "on" then Some(Some(STATE_ON))
      else if view.subtitle == "turning on" then Some(Some(STATE_TURNING_ON))
      else None
    case Inactive =>
      if view.subtitle == "off" then Some(Some(STATE_OFF))
      else if view.subtitle == "turning off" then Some(Some(STATE_TURNING_OFF))
      else None
    case Unavailable =>
      var n := |UNEXPECTED_STATE|;
      if |view.subtitle| < n || view.subtitle[..n] != UNEXPECTED_STATE then None
      else
        var rest := view.subtitle[n..];
        if rest == "null" then Some(None)
        else match KotlinText.ParseInt(rest)
          case Some(v) => if -0x8000_0000 <= v < 0x8000_0000 then Some(Some(v as Int32)) else None
          case None => None
  }

  /** The tile view determines the adapter state it shows. */
  lemma TileForRoundTrip(s: Option<Int32>)
    ensures ReportedStateOf(TileFor(s)) == Some(s)
  {
    if !IsKnownState(s) {
      var text := KotlinText.NullableToString(s);
      var subtitle := UNEXPECTED_STATE + text;
      assert subtitle[..|UNEXPECTED_STATE|] == UNEXPECTED_STATE;
      assert subtitle[|UNEXPECTED_STATE|..] == text;
      if s.Some? {
        KotlinText.IntToStringRoundTrip(s.value);
      }
    }
  }

  /** Two different adapter states never render to the same tile. */
  lemma TileForInjective(a: Option<Int32>, b: Option<Int32>)
    requires TileFor(a) == TileFor(b)
    ensures a == b
  {
    TileForRoundTrip(a);
    TileForRoundTrip(b);
  }

  /** The four adapter states the tile recognises, each with its label. */
  lemma KnownStatesMapExactly()
    ensures TileFor(Some(STATE_ON)) == TileView(Active, "on")
    ensures TileFor(Some(STATE_OFF)) == TileView(Inactive, "off")
    ensures TileFor(Some(STATE_TURNING_ON)) == TileView(Active, "turning on")
    ensures TileFor(Some(STATE_TURNING_OFF)) == TileView(Inactive, "turning off")
  {
  }

  /** No manager or adapter, and a broadcast without a state extra, both show as unexpected. */
  lemma NullAndErrorAreUnexpected()
    ensures TileFor(None) == TileView(Unavailable, "Unexpected state: null")
    ensures TileFor(Some(ERROR)) == TileView(Unavailable, "Unexpected state: -2147483648")
  {
  }

  /** `manager?.adapter?.state`: null when there is no manager or no adapter. */
  function AdapterStateOf(manager: Option<BluetoothManager>): (r: Option<Int32>)
    ensures r.None? <==> manager.None? || manager.value.adapter.None?
    ensures r.Some? ==> r.value == manager.value.adapter.value.state
  {
    match manager
    case None => None
    case Some(m) =>
      match m.adapter
      case None => None
      case Some(a) => Some(a.state)
  }

  /** `intent.getIntExtra(name, default)`. */
  function GetIntExtra(intent: Intent, name: string, default: Int32): (r: Int32)
    ensures name in intent.extras ==> r == intent.extras[name]
    ensures name !in intent.extras ==> r == default
  {
    if name in intent.extras then intent.extras[name] else default
  }

  /** The command a tap issues from a tile in the given state, if any. */
  function ClickCommand(state: TileState): (r: Option<string>)
    ensures r == Some("disable") <==> state == Active
    ensures r == Some("enable") <==> state == Inactive
    ensures r == None <==> state == Unavailable
    ensures r.Some? ==> IsCommand(r.value)
  {
    match state
    case Active => Some("disable")
    case Inactive => Some("enable")
    case Unavailable => None
  }

  /** A tap on the tile disables Bluetooth exactly when it is on or turning on, and enables it exactly when it is off or turning off. */
  lemma ClickFollowsAdapterState(s: Option<Int32>)
    ensures ClickCommand(TileFor(s).state) == Some("disable") <==> s == Some(STATE_ON) || s == Some(STATE_TURNING_ON)
    ensures ClickCommand(TileFor(s).state) == Some("enable") <==> s == Some(STATE_OFF) || s == Some(STATE_TURNING_OFF)
    ensures ClickCommand(TileFor(s).state) == None <==> !IsKnownState(s)
  {
  }

  /** The tile once a command has run with the given outcome. */
  function AfterCommand(view: TileView, outcome: ProcessOutcome): (r: TileView)
    ensures r.state == Unavailable
    ensures outcome.Caught() ==> r.subtitle == CAUGHT + outcome.className
    ensures !outcome.Caught() ==> r.subtitle == view.subtitle
  {
    match outcome
    case StartFailed(name) => TileView(Unavailable, CAUGHT + name)
    case Threw(name) => TileView(Unavailable, CAUGHT + name)
    case _ => TileView(Unavailable, view.subtitle)
  }

  /**
   * What running a command shows, in order: the tile made unavailable, then
   * the subprocess launch unless starting it threw, then, only if an
   * exception was caught, the tile with the exception's class name as subtitle.
   */
  function CommandTrace(view: TileView, command: string, outcome: ProcessOutcome): (r: seq<Event>)
    ensures |r| == (if outcome.Started() then 2 else 1) + (if outcome.Caught() then 1 else 0)
    ensures r[0] == Published(TileView(Unavailable, view.subtitle))
    ensures forall i :: 0 <= i < |r| ==> (r[i].Launched? <==> i == 1 && outcome.Started())
    ensures outcome.Started() ==> r[1] == Launched(command)
    ensures outcome.Caught() ==> r[|r| - 1] == Published(AfterCommand(view, outcome))
    ensures forall i :: 0 <= i < |r| && r[i].Published? ==> r[i].view.state == Unavailable
  {
    [Published(TileView(Unavailable, view.subtitle))]
      + (if outcome.Started() then [Launched(command)] else [])
      + (if outcome.Caught() then [Published(AfterCommand(view, outcome))] else [])
  }

  /**
   * The tile a command leaves behind issues nothing on a tap; only a re-render
   * (a matching broadcast, or starting to listen again) makes it tappable.
   */
  lemma NoSecondCommandUntilRerender(view: TileView, outcome: ProcessOutcome)
    ensures ClickCommand(AfterCommand(view, outcome).state) == None
  {
  }
}
