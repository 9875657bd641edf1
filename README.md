# BtQuickAccess tile, modelled in Dafny

BtQuickAccess is an Android quick-settings tile that turns Bluetooth on and
off. Its one class, `TileService`, does four things:

- It listens for the adapter's state-changed broadcast while the tile is
  visible.
- It renders each reported adapter state as an activation flag and a
  subtitle.
- On a tap, it runs `su -c "cmd bluetooth_manager enable|disable"`.
- It makes the tile unavailable until the tile is rendered again, either
  from the OS's broadcast of the new state or when listening starts again.

The model has four modules:

- `Wrappers` (`wrappers.dfy`): `Option`, which stands for Kotlin's nullable types.
- `KotlinText` (`kotlin_text.dfy`): how a Kotlin string template prints an
  `Int` or an `Int?`. It uses base ten, a leading `-` for negative values,
  and `null` for a null value. The module also has a parser that reads that
  text back.
- `BluetoothTile` (`bluetooth_tile.dfy`): the pure logic, written as
  functions. It holds the adapter constants and the state-to-tile mapping
  (`TileFor`), with its inverse `ReportedStateOf`. It also holds the tap
  dispatch (`ClickCommand`), the effect of a command on the tile
  (`AfterCommand`) and the order of what a command publishes
  (`CommandTrace`).
- `QuickSettings` (`tile_service.dfy`): the class `TileService`. Its fields
  are the tile's `tileState` and `subtitle`, updated in place, and
  `registered`, which is true while the receiver is registered. A ghost
  `events` log records each registration and unregistration, each
  `updateTile()` with the view it published, and each subprocess that was
  started, oldest first. Every callback
  states its exact new state and the events it appends, in terms of the
  pure functions.

The adapter constants have their Android SDK values: `STATE_OFF` = 10,
`STATE_TURNING_ON` = 11, `STATE_ON` = 12, `STATE_TURNING_OFF` = 13 and
`ERROR` = `Integer.MIN_VALUE`. Kotlin's `Int` is the subset type `Int32`.

## Model

| member | source | states |
|---|---|---|
| KotlinText.DecimalOf | app/src/main/java/fr/bluecode/btquickaccess/TileService.kt:89 | the decimal text of a natural number is a non-empty string of digits, and it starts with '0' exactly when the number is 0 (no leading zero) |
| KotlinText.IntToString | app/src/main/java/fr/bluecode/btquickaccess/TileService.kt:89 | an `Int` in a template prints as non-empty text that starts with '-' exactly when the value is negative, followed by decimal digits |
| KotlinText.NullableToString | app/src/main/java/fr/bluecode/btquickaccess/TileService.kt:89 | an `Int?` prints as "null" exactly when it is null; otherwise its text starts with '-' or a digit |
| KotlinText.ParseDecimalOfDecimal | app/src/main/java/fr/bluecode/btquickaccess/TileService.kt:89 | parsing the decimal text of n gives back n |
| KotlinText.IntToStringRoundTrip | app/src/main/java/fr/bluecode/btquickaccess/TileService.kt:89 | the printed text of any integer parses back to that integer |
| BluetoothTile.TileFor | app/src/main/java/fr/bluecode/btquickaccess/TileService.kt:83-90 | the tile is active exactly for ON and TURNING_ON and inactive exactly for OFF and TURNING_OFF. It is unavailable exactly for any other state, null included, and then its subtitle is "Unexpected state: " followed by the printed state |
| BluetoothTile.KnownStatesMapExactly | app/src/main/java/fr/bluecode/btquickaccess/TileService.kt:85-88 | ON gives (active, "on"), OFF gives (inactive, "off"), TURNING_ON gives (active, "turning on") and TURNING_OFF gives (inactive, "turning off") |
| BluetoothTile.NullAndErrorAreUnexpected | app/src/main/java/fr/bluecode/btquickaccess/TileService.kt:32-48 | a missing manager or adapter (null) gives (unavailable, "Unexpected state: null"). A broadcast without a state extra (`ERROR`) gives (unavailable, "Unexpected state: -2147483648") |
| BluetoothTile.TileForRoundTrip | app/src/main/java/fr/bluecode/btquickaccess/TileService.kt:83-93 | the reported adapter state can be read back from the tile it renders to: `ReportedStateOf(TileFor(s)) == Some(s)` for every state, null included |
| BluetoothTile.TileForInjective | app/src/main/java/fr/bluecode/btquickaccess/TileService.kt:83-93 | two different reported states never show the same tile (flag and subtitle) |
| BluetoothTile.AdapterStateOf | app/src/main/java/fr/bluecode/btquickaccess/TileService.kt:47-48 | `manager?.adapter?.state` is null exactly when the manager or its adapter is missing; otherwise it is the adapter's state |
| BluetoothTile.GetIntExtra | app/src/main/java/fr/bluecode/btquickaccess/TileService.kt:32 | the extra's value when the intent carries it, the given default otherwise |
| BluetoothTile.ClickCommand | app/src/main/java/fr/bluecode/btquickaccess/TileService.kt:65-78 | a tap issues "disable" exactly when the tile is active and "enable" exactly when it is inactive. It issues nothing exactly when the tile is unavailable. Any command it issues meets the requirement of line 100 |
| BluetoothTile.ClickFollowsAdapterState | app/src/main/java/fr/bluecode/btquickaccess/TileService.kt:65-90 | on a tile rendered from state s, a tap disables exactly when s is ON or TURNING_ON. It enables exactly when s is OFF or TURNING_OFF, and it does nothing for any other s |
| BluetoothTile.AfterCommand | app/src/main/java/fr/bluecode/btquickaccess/TileService.kt:102-131 | after a command the tile is unavailable. Its subtitle becomes "Caught: " followed by the exception's class name if an exception was caught (when starting the process, or after it started). It stays as it was on timeout or any exit code |
| BluetoothTile.CommandTrace | app/src/main/java/fr/bluecode/btquickaccess/TileService.kt:100-131 | a command first publishes the unavailable tile, with the old subtitle. A launch is logged next, and only there, exactly when starting the process did not throw. The trace ends with the "Caught: ..." tile exactly when an exception was caught. Every view it publishes is unavailable |
| BluetoothTile.NoSecondCommandUntilRerender | app/src/main/java/fr/bluecode/btquickaccess/TileService.kt:65-78 | the tile a command leaves behind, whatever its outcome, issues nothing on a tap. Only a re-render makes it tappable again: a matching broadcast, or `OnStartListening` |
| QuickSettings.TileService.constructor | app/src/main/java/fr/bluecode/btquickaccess/TileService.kt:20 | a new service has no receiver registered and has logged nothing |
| QuickSettings.TileService.UpdateForBluetoothState | app/src/main/java/fr/bluecode/btquickaccess/TileService.kt:81-96 | the tile becomes `TileFor(state)` and is published once. The receiver flag is unchanged. Re-rendering the state already shown therefore leaves the tile as it was (idempotence) |
| QuickSettings.TileService.OnStartListening | app/src/main/java/fr/bluecode/btquickaccess/TileService.kt:22-49 | requires that no receiver is registered. Afterwards one is, and the tile is rendered from `manager?.adapter?.state`. The log gains the registration followed by that one publication |
| QuickSettings.TileService.OnStopListening | app/src/main/java/fr/bluecode/btquickaccess/TileService.kt:51-60 | afterwards no receiver is registered and the tile is unchanged. An unregistration is logged only if a receiver was registered, so a call with none registered changes nothing |
| QuickSettings.TileService.OnReceive | app/src/main/java/fr/bluecode/btquickaccess/TileService.kt:29-41 | requires a registered receiver, because the OS delivers broadcasts only between registration (line 44) and unregistration (line 54). A broadcast whose action is not ACTION_STATE_CHANGED, a null action included, changes nothing. A matching one renders `TileFor` of its state extra, or of ERROR when the extra is missing |
| QuickSettings.TileService.OnClick | app/src/main/java/fr/bluecode/btquickaccess/TileService.kt:62-79 | if the tap issues no command, the tile and the log are unchanged. Otherwise the tile and the log change exactly as running `ClickCommand` of the old state does |
| QuickSettings.TileService.SetBluetoothState | app/src/main/java/fr/bluecode/btquickaccess/TileService.kt:98-134 | requires "enable" or "disable". The tile ends as `AfterCommand` of the old tile, and the log gains `CommandTrace`. So the unavailable tile is published before any process starts, and a start that throws logs no launch |

## Left out

- Android framework calls are left out as behaviour. `registerReceiver` and
  `unregisterReceiver` are modelled by the `registered` flag and the
  `Registered`/`Unregistered` events. `updateTile()` is modelled as a
  `Published` event. `getSystemService` is modelled as the `manager`
  parameter of `OnStartListening`. `Log` calls and `Intent`/`IntentFilter`
  construction are left out.
- The subprocess (`ProcessBuilder`, `su`, the one-second `waitFor`) is not
  run. How it ends is an input, `ProcessOutcome`: `StartFailed(className)`
  (`start()` threw, so no process runs), `TimedOut`, `Exited(code)` or
  `Threw(className)` (waiting or reading output threw after the start).
  `Exited(0)` is success.
- Reading the subprocess's stdout and stderr is I/O and only feeds a log
  message, so it is left out. Line 118 reads `inputStream` a second time
  instead of the error stream, which affects only that log message.
- The intent's extras are modelled as a map of integer extras only. An
  extra that is present under `EXTRA_STATE` but is not an `Int` (which
  `getIntExtra` also answers with the default) is not represented.
- Concurrency and callback ordering are left out. The host framework
  serialises all callbacks.
- The OS delivering a new state after a command (the asynchronous
  re-render) is left out. In the model it is a later `OnReceive` call, or a
  later `OnStartListening` after the tile stopped listening.
- The initial contents of the tile are chosen by the system. The
  constructor takes them as a parameter.
- The `assert` calls at lines 25 and 100 become preconditions:
  `OnStartListening` requires that no receiver is registered, and
  `SetBluetoothState` requires "enable" or "disable". The model does not
  say what happens when a caller breaks them. The JVM skips `assert`
  unless assertions are enabled.
