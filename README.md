# MDServerRemote: observer registry, ping ticker and request shaping

This project models the client side of the KBFS metadata server connection,
`MDServerRemote` in `libkbfs/mdserver_remote.go`, and proves properties of it in Dafny.

The model covers the state the client keeps between calls:

- **The per-folder observer registry.** `observers` maps a folder ID (`TlfID`) to a one-slot Go
  channel of `error`. A caller registers for updates of a folder and gets that channel back. The
  channel is then woken exactly once, in one of three ways:
  - a server push (`MetadataUpdate`) sends nil, closes the channel and removes the entry;
  - a disconnection or shutdown (`cancelObservers`) sends `MDServerDisconnected`, closes it and
    removes it;
  - a failed registration closes it without a value.
  The registry invariant (`MDServerRemote.Valid`) says that every registered channel is distinct,
  open and empty. This is exactly what the send and close in `signalObserverLocked` need: they
  must neither block nor panic.
- **The ping-ticker slot.** `tickerCancel` holds the cancel function of the running keep-alive
  ticker, if one is running. `resetPingTicker` always cancels the old ticker first. It starts a new
  ticker only for a positive interval, so at most one ticker ever runs. A ticker is modelled by its
  generation and its interval. The ghost set `liveTickers` holds the tickers not yet cancelled.

`ResetPingTicker`, `CancelObservers`, `MetadataUpdate`, `InstallObserver` and `WithdrawObserver`
each stand for one region run under `observerMu` or `tickerMu`, taken as a single atomic step.
The other methods are sequences of these. `RegisterForUpdate` builds one `RegisterForUpdates` request (the
folder's ID string and the caller's current head) and hands `DoCommand` a closure. That closure
holds two such regions, with the RPC in between. A disconnection runs `cancelObservers` at one of
two points: before a run (while `DoCommand` waits for a connection, or between a run and its retry)
or inside the RPC gap. Each closure run carries one flag for each of these two points. The run
also carries the set-up results and the RPC, which is a function of the request.
`DoCommand` itself is not part of the model. `RegisterForUpdate` takes the list of closure runs
that `DoCommand` makes. It runs them in order until one returns nil or panics. If `DoCommand`
never runs the closure, the error it returns is given as a parameter. `FirstFinalRun` names the
run that ends the retries. The contract of `RegisterForUpdate` says, from that run alone, which
result the call returns and what state the returned channel is in.

The pure pieces are modelled as functions, or as methods that change nothing:
- the throttle classification;
- the folder-ID check of both push handlers;
- the request `get` builds, and how it checks and decodes the response;
- the first-record selection in `GetForHandle`/`GetForTLF`;
- the flattening of the nested user → device → key-half map in `PutTLFCryptKeyServerHalves`.

The library calls the code makes go through `MdTypes.Config`, a record of total functions:
`ParseTlfID`, `TlfID.String`, `TlfHandle.ToBytes`, and the codec's decode of metadata blocks
and encode of key halves. The RPCs `GetMetadata`, `PutKeys`, `Authenticate` and
`RegisterForUpdates` are functions of their request. Signing and the RPC server's
`Register`/`Run` results are plain inputs. Go's `error` is `Option<Err>`, with
`None` for nil. A panic is `Outcome.Panic(message)`.

`get` fills a fixed-size slice in a loop, so the model fills an `array`. The flattening appends to
a list in nested loops over maps. Go's map iteration order is unspecified, so the model picks
each next key arbitrarily (`:|`). Its contract is stated at set level: one entry per
(user, device) pair, with no pair twice.

Registration installs the channel before the RPC and removes it again if the RPC fails, provided
the channel is still registered.

Files: `wrappers.dfy` (Option, Result), `md_types.dfy` (IDs, errors, requests, `Config`),
`channel.dfy` (buffered channel), `md_protocol.dfy` (pure handlers), `md_server_remote.dfy` (the
class), `md_get.dfy` (`get` and its callers), `key_server.dfy` (key-half flattening),
`scenarios.dfy` (end-to-end client runs).

## Model

| member | source | states |
|---|---|---|
| `MdProtocol.ShouldThrottle` | libkbfs/mdserver_remote.go:176-182 | throttling happens exactly for errors of the server's throttle type, whatever their message; nil never throttles |
| `MdProtocol.FolderIDFromArg` | libkbfs/mdserver_remote.go:314-317 | a pushed folder ID is accepted as parsed exactly when it does not parse to NullTlfID; otherwise the push is the bad request "Invalid folder ID" |
| `MdProtocol.FolderNeedsRekey` | libkbfs/mdserver_remote.go:333-342 | the rekey notice succeeds exactly for parsable folder IDs and is otherwise a bad request; the registry is not involved |
| `MdProtocol.RegisterProtocolError` | libkbfs/mdserver_remote.go:359-364 | registering the update protocol fails the attempt exactly for errors other than "already registered", and then with that error |
| `MdProtocol.DoubleRegistration` | libkbfs/mdserver_remote.go:375-376 | the panic message is the fixed double-registration prefix followed by the folder's ID string |
| `MdProtocol.ServerSetupError` | libkbfs/mdserver_remote.go:358-368 | the set-up succeeds only when both the protocol registration and the server start succeed; a registration error takes precedence over a start error |
| `Channels.Chan.constructor` | libkbfs/mdserver_remote.go:379 | a made channel is open, empty and has the given capacity |
| `Channels.Chan.Send` | libkbfs/mdserver_remote.go:196 | a send is allowed only on an open channel with room; the value is appended to the buffer |
| `Channels.Chan.Close` | libkbfs/mdserver_remote.go:197 | closing is allowed only once; the buffered values stay |
| `MdServerRemote.MDServerRemote.constructor` | libkbfs/mdserver_remote.go:51-64 | a new client has an empty registry, no ticker and the given configuration |
| `MdServerRemote.MDServerRemote.ResetPingTicker` | libkbfs/mdserver_remote.go:108-124 | the old ticker, if any, is cancelled; an interval of 0 or less leaves no ticker; a positive interval leaves exactly one new ticker with that interval; at most one ticker is ever live |
| `MdServerRemote.MDServerRemote.OnConnect` | libkbfs/mdserver_remote.go:67-92 | a signing or authentication error is returned with the ticker untouched; otherwise the ticker is reset to the interval the server returned, and nil is returned |
| `MdServerRemote.MDServerRemote.SignalObserverLocked` | libkbfs/mdserver_remote.go:195-199 | the registered channel receives exactly the given value and is closed; only its entry is removed; the registry invariant is kept |
| `MdServerRemote.MDServerRemote.CancelObservers` | libkbfs/mdserver_remote.go:185-192 | the registry ends empty; every channel registered before holds exactly one MDServerDisconnected and is closed |
| `MdServerRemote.MDServerRemote.MetadataUpdate` | libkbfs/mdserver_remote.go:313-330 | an unparsable folder ID is a bad request and changes nothing; a registered folder's channel receives nil and is closed, and only that entry is removed; an unregistered folder changes nothing and nil is returned |
| `MdServerRemote.MDServerRemote.InstallObserver` | libkbfs/mdserver_remote.go:372-381 | registering a folder that already has an observer panics with the double-registration message and leaves the registry as it was; otherwise a fresh, open, empty one-slot channel is installed under the folder and nothing else changes |
| `MdServerRemote.MDServerRemote.WithdrawObserver` | libkbfs/mdserver_remote.go:387-396 | the folder's channel, if it is still registered, is closed without a value and removed; otherwise nothing changes |
| `MdServerRemote.RegisterForUpdatesArgs` | libkbfs/mdserver_remote.go:347-351 | the request names the folder by its ID string and carries the caller's current head revision |
| `MdServerRemote.AttemptError` | libkbfs/mdserver_remote.go:358-399 | a run returns nil exactly when its set-up succeeds and its RPC succeeds; a set-up error is returned in preference to the RPC's |
| `MdServerRemote.FirstFinalRun` | libkbfs/mdserver_remote.go:355-400 | the result is the least index of a run that ends the retries (its set-up succeeds, and it then panics on a still-registered folder or its RPC succeeds), or the number of runs if none does |
| `MdServerRemote.MDServerRemote.RunClosure` | libkbfs/mdserver_remote.go:355-399 | a set-up error is returned with nothing installed; a registered folder panics; otherwise a fresh channel is installed and the RPC's error returned; the channel stays registered and idle if the RPC succeeds and no disconnection intervened, is withdrawn if the RPC fails, and is told of the disconnection (with every other observer) if one intervened |
| `MdServerRemote.MDServerRemote.RegisterAttempt` | libkbfs/mdserver_remote.go:370-371 | a disconnection before the run tells every registered observer and empties the registry; the run then behaves as the closure body on that registry, so a folder cleared this way is installed again instead of panicking |
| `MdServerRemote.MDServerRemote.RetryTurn` | libkbfs/mdserver_remote.go:355-400 | one retry turn ends the retries exactly when the run does; a run that does not end them returns its error and keeps the retry-loop state; a run that does yields the panic, or the channel it installed: registered and idle, or told of a disconnection during its RPC |
| `MdServerRemote.MDServerRemote.RegisterForUpdate` | libkbfs/mdserver_remote.go:345-405 | with j the first run that ends the retries: when there is none, no channel is returned, the error is the last run's (or DoCommand's own when it made no run), and the folder is registered exactly while no disconnection cleared the entry it had; when run j finds the folder still registered, the call panics with the double-registration message and changes nothing; otherwise the call returns nil and the fresh channel run j installed, registered and idle unless a disconnection during run j's RPC told it; for a folder not registered before, nil is returned exactly when some run's set-up and RPC both succeed; when a disconnection cleared the registry during the call, every observer registered before was told of it and only the folder's own entry can remain, and otherwise every such observer is still registered |
| `MdServerRemote.MDServerRemote.OnConnectError` | libkbfs/mdserver_remote.go:145-155 | afterwards no observer is registered, every earlier one was told of the disconnection, and no ticker runs |
| `MdServerRemote.MDServerRemote.OnDisconnected` | libkbfs/mdserver_remote.go:164-173 | afterwards no observer is registered, every earlier one was told of the disconnection, and no ticker runs |
| `MdServerRemote.MDServerRemote.Shutdown` | libkbfs/mdserver_remote.go:427-438 | afterwards no observer is registered, every earlier one was told of the disconnection, and no ticker runs |
| `MdGet.GetMetadataArgs` | libkbfs/mdserver_remote.go:206-223 | with neither a folder ID nor a handle the result is MDInvalidGetArguments and no request exists; otherwise exactly one folder identifier is sent: the ID's string when the ID is not null, otherwise the handle's bytes; revisions, branch and merge status are carried over |
| `MdGet.FirstUndecodable` | libkbfs/mdserver_remote.go:238-246 | the result is the least index of a block the codec cannot decode, or the number of blocks if it decodes them all |
| `MdGet.Get` | libkbfs/mdserver_remote.go:202-248 | invalid arguments return MDInvalidGetArguments without a request; an RPC error is returned as is; a response whose folder ID does not parse gives MDInvalidTlfID; otherwise one slot per block: the decoded record up to the first undecodable block, nil after it, with that block's error; on success the response has exactly one decoded record per block, in order |
| `MdGet.GetForHandle` | libkbfs/mdserver_remote.go:251-262 | a missing handle is MDInvalidGetArguments; otherwise the request carries the handle's bytes for the uninitialized revision range, and the result is get's error or its first record (nil when there are no blocks) |
| `MdGet.GetForTLF` | libkbfs/mdserver_remote.go:265-276 | the null ID is MDInvalidGetArguments; otherwise the request carries the ID's string for the uninitialized revision range on the branch, and the result is get's error or its first record (nil when there are no blocks) |
| `KeyServer.PutTLFCryptKeyServerHalves` | libkbfs/mdserver_remote.go:482-506 | a half that fails to encode ends the call with an encoding error and sends nothing; otherwise the PutKeys request holds exactly one entry per (user, device) pair, carrying that half's encoding, and its error is returned |
| `Scenarios.PushWakesOnlyItsFolder` | libkbfs/mdserver_remote.go:313-330 | with two folders registered, a push for one wakes that one with nil and leaves the other open and empty |
| `Scenarios.DoubleRegistrationPanics` | libkbfs/mdserver_remote.go:372-381 | a second registration of a folder panics, and the first channel stays registered and idle |
| `Scenarios.RetryAfterFailedRpc` | libkbfs/mdserver_remote.go:385-399 | a retry after a failed RPC registers a fresh idle channel instead of panicking |
| `Scenarios.FailedRpcReturnsItsError` | libkbfs/mdserver_remote.go:385-404 | a failed RegisterForUpdates RPC makes the call return that error and no channel, and leaves the folder unregistered |
| `Scenarios.RetryAfterInterruptedRpc` | libkbfs/mdserver_remote.go:385-399 | a disconnection during a failing run's RPC does not affect the retry: its channel is registered and idle |
| `Scenarios.ReRegisterAfterDisconnection` | libkbfs/mdserver_remote.go:370-381 | after a disconnection clears the registry, the folder registers again without panicking; the old channel was told of the disconnection |
| `Scenarios.DisconnectBeforeRunTellsOthers` | libkbfs/mdserver_remote.go:185-192 | a disconnection before another folder's registration run tells the waiting folder and drops it; the new folder ends registered alone and idle |
| `Scenarios.RequestNamesFolderAndHead` | libkbfs/mdserver_remote.go:347-351 | a server accepting only this folder's ID string at the caller's head accepts the registration |
| `Scenarios.DisconnectWakesEveryone` | libkbfs/mdserver_remote.go:164-173 | a disconnection tells both waiting folders |
| `Scenarios.ReconnectStartsOneTicker` | libkbfs/mdserver_remote.go:108-155 | after two failed connection attempts and one that authenticates with interval 30, exactly one ticker runs, with that interval |

## Left out

- `Connection` and `DoCommand` (the reconnect, backoff and throttle loop) are not part of this model. `RegisterForUpdate` takes the closure runs `DoCommand` makes as a list, plus the error it returns when it never runs the closure.
- RegisterForUpdate: when the closure has run and failed, the error returned is that of the last run. An error of `DoCommand`'s own, such as a cancellation while it waits to retry, is not modelled.
- RegisterForUpdate: a disconnection before a run or during its RPC is represented only by its `cancelObservers`. The ping-ticker reset that goes with it in `OnDisconnected` and `OnConnectError` is not applied inside the call.
- Mutexes `observerMu` and `tickerMu`: each locked region is one atomic method. The only interleavings modelled are a `cancelObservers` before a run of the registration closure and one between its two locked blocks.
- RegisterForUpdate: a `MetadataUpdate` push that arrives for the folder in the RPC gap is not modelled. That push is why the code installs the channel before the RPC. Under it, the returned channel would be `Updated`, not `Idle`.
- The ping goroutine (`time.Ticker`, `select`, the `Ping` RPC) is concurrency and timing. Only the cancel slot and the set of uncancelled tickers are modelled.
- `AuthToken`: `Sign` is an input to `OnConnect`. `authToken.Shutdown()` in `OnConnectError`, `OnDisconnected` and `Shutdown` is an external call with no state here. `RefreshAuthToken` only logs its errors and changes nothing.
- `getFoldersForRekey` and its `GetFoldersForRekey` RPC: `OnConnect` only logs their failure, so they do not affect the modelled state.
- `NewMDServerRemote`'s building of the TLS connection and the metadata client, and `conn.Shutdown()` in `Shutdown`, are external calls.
- `OnDoCommandError` and the status argument of `OnDisconnected` only feed logging.
- `GetRange` returns `get`'s result unchanged, and `Get` covers it.
- `Put`, `PruneBranch` and `GetTLFCryptKeyServerHalf` hold no client logic and are not modelled:
  - `Put` encodes the record and makes one RPC;
  - `PruneBranch` builds its request from the folder ID and branch strings and makes one RPC, with no codec call;
  - `GetTLFCryptKeyServerHalf` encodes the half's ID, looks up the device's current crypt public key through KBPKI, makes one RPC and decodes the key. Each error is returned as is.
- `MetadataRevision.Number()` and `BranchID.String()` are not modelled: the `GetMetadata` and `RegisterForUpdates` requests carry the revision and branch values themselves. Log tags and contexts are dropped.
- `ParseTlfID`, `TlfID.String`, `TlfHandle.ToBytes` and the codec are library code. They are uninterpreted functions in `Config`, and the byte layout of IDs, handles and records is not modelled.
- The receiving end of an observer channel is not modelled, because the registry never reads. A channel's buffer therefore holds everything ever sent to it.
- Go map iteration order in `cancelObservers` and `PutTLFCryptKeyServerHalves` is an arbitrary choice. The contracts are stated on sets, not on a fixed order.
