/**
 * The tile service itself: the tile it owns (activation flag and subtitle,
 * updated in place), whether its Bluetooth state-change receiver is
 * registered, and a ghost log of what it has published and launched.
 */
module QuickSettings {
  import opened Wrappers
  import opened BluetoothTile

  class TileService {
    var tileState: TileState
    var subtitle: string
    /** True while `bluetoothChangeReceiver` is non-null and registered with the OS. */
    var registered: bool
    /** Every registration, unregistration, tile update and subprocess launch so far, oldest first. */
    ghost var events: seq<Event>

    function View(): TileView
      reads this
    {
      TileView(tileState, subtitle)
    }

    /** A fresh service over a tile the system shows as `initial`; no receiver yet. */
    constructor (initial: TileView)
      ensures View() == initial && !registered && events == []
    {
      tileState, subtitle := initial.state, initial.subtitle;
      registered := false;
      events := [];
    }

    method UpdateForBluetoothState(state: Option<Int32>)
      modifies this
      ensures View() == TileFor(state)
      ensures registered == old(registered)
      ensures events == old(events) + [Published(TileFor(state))]
      // Idempotence: rendering the state the tile already shows changes nothing.
      // This follows from the first clause, since the new view does not depend
      // on the old one.
      ensures old(View()) == TileFor(state) ==> View() == old(View())
    {
      var view := TileFor(state);
      tileState := view.state;
      subtitle := view.subtitle;
      events := events + [Published(View())];
    }

    method OnStartListening(manager: Option<BluetoothManager>)
      requires !registered
      modifies this
      ensures registered
      ensures View() == TileFor(AdapterStateOf(manager))
      ensures events == old(events) + [Registered, Published(TileFor(AdapterStateOf(manager)))]
    {
      registered := true;
      events := events + [Registered];
      UpdateForBluetoothState(AdapterStateOf(manager));
    }

    method OnStopListening()
      modifies this
      ensures !registered
      ensures View() == old(View())
      ensures events == old(events) + (if old(registered) then [Unregistered] else [])
    {
      if registered {
        registered := false;
        events := events + [Unregistered];
      }
    }

    /** The receiver's callback for a broadcast `intent`; the OS delivers only to a registered receiver. */
    method OnReceive(intent: Intent)
      requires registered
      modifies this
      ensures registered == old(registered)
      ensures intent.action != Some(ACTION_STATE_CHANGED) ==> View() == old(View()) && events == old(events)
      ensures intent.action == Some(ACTION_STATE_CHANGED) ==>
        var state := GetIntExtra(intent, EXTRA_STATE, ERROR);
        View() == TileFor(Some(state)) && events == old(events) + [Published(TileFor(Some(state)))]
    {
      if intent.action == Some(ACTION_STATE_CHANGED) {
        var state := GetIntExtra(intent, EXTRA_STATE, ERROR);
        UpdateForBluetoothState(Some(state));
      }
    }

    /** A tap on the tile; `outcome` is how the subprocess would end if one is launched. */
    method OnClick(outcome: ProcessOutcome)
      modifies this
      ensures registered == old(registered)
      ensures ClickCommand(old(tileState)).None? ==> View() == old(View()) && events == old(events)
      ensures ClickCommand(old(tileState)).Some? ==>
        && View() == AfterCommand(old(View()), outcome)
        && events == old(events) + CommandTrace(old(View()), ClickCommand(old(tileState)).value, outcome)
    {
      if tileState == Active {
        SetBluetoothState("disable", outcome);
      } else if tileState == Inactive {
        SetBluetoothState("enable", outcome);
      }
    }

    method SetBluetoothState(command: string, outcome: ProcessOutcome)
      requires IsCommand(command)
      modifies this
      ensures registered == old(registered)
      ensures View() == AfterCommand(old(View()), outcome)
      ensures events == old(events) + CommandTrace(old(View()), command, outcome)
    {
      tileState := Unavailable;
      events := events + [Published(View())];
      match outcome
      case StartFailed(className) =>
        subtitle := CAUGHT + className;
        events := events + [Published(View())];
      case TimedOut =>
        events := events + [Launched(command)];
        return;
      case Exited(_) =>
        // A non-zero exit code is only logged.
        events := events + [Launched(command)];
      case Threw(className) =>
        events := events + [Launched(command)];
        subtitle := CAUGHT + className;
        events := events + [Published(View())];
    }
  }
}
