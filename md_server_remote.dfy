/** The state an MDServerRemote keeps between calls: the per-folder observer
    registry and the ping-ticker slot. ResetPingTicker, CancelObservers,
    MetadataUpdate, InstallObserver and WithdrawObserver each stand for one
    region the Go code runs under observerMu or tickerMu, taken as a single
    atomic step; the other methods are sequences of these. */
module MdServerRemote {
  import opened Wrappers
  import opened MdTypes
  import opened MdProtocol
  import opened Channels

  /** A running ping ticker: which start created it, and its period. */
  datatype Ticker = Ticker(generation: nat, intervalSeconds: int)

  /** The RegisterForUpdates request: the folder's ID string and the
      revision of the head the caller already has. */
  datatype RegisterForUpdatesArg = RegisterForUpdatesArg(folderID: string, currRevision: MetadataRevision)

  /** The request RegisterForUpdate builds once and sends on every run. */
  function RegisterForUpdatesArgs(config: Config, id: TlfID, currHead: MetadataRevision): (arg: RegisterForUpdatesArg)
    ensures arg.folderID == config.tlfIDString(id) && arg.currRevision == currHead
  {
    RegisterForUpdatesArg(config.tlfIDString(id), currHead)
  }

  /** What one run of the RegisterForUpdate closure meets: whether a
      disconnection cleared the registry (cancelObservers) after the previous
      run and before this one, the results of registering the update protocol
      with the local RPC server and of starting that server, the
      RegisterForUpdates RPC as a function of the request, and whether a
      disconnection cleared the registry while that RPC was in flight,
      between the closure's two locked blocks. */
  datatype AttemptEnv = AttemptEnv(
    cancelledBeforeRun: bool,
    registerErr: Option<Err>,
    runErr: Option<Err>,
    registerForUpdates: RegisterForUpdatesArg -> Option<Err>,
    cancelledDuringRpc: bool)

  /** The closure's server set-up succeeds in this run. */
  predicate SetupSucceeds(env: AttemptEnv)
  {
    ServerSetupError(env.registerErr, env.runErr).None?
  }

  /** The error one run of the closure returns when it does not panic: the
      set-up error, or else the RPC's. */
  function AttemptError(env: AttemptEnv, arg: RegisterForUpdatesArg): (err: Option<Err>)
    ensures err.None? <==> SetupSucceeds(env) && env.registerForUpdates(arg).None?
    ensures !SetupSucceeds(env) ==> err == ServerSetupError(env.registerErr, env.runErr)
  {
    var setup := ServerSetupError(env.registerErr, env.runErr);
    if setup.Some? then setup else env.registerForUpdates(arg)
  }

  /** The folder is still registered when run `n` starts (n = |attempts|:
      after the last run), given whether it was registered before the call:
      no disconnection cleared the registry before any earlier run. A run
      that found the folder registered and got past set-up panicked, so no
      earlier run reached its RPC. */
  predicate StillRegistered(registered: bool, attempts: seq<AttemptEnv>, n: nat)
  {
    registered && forall k :: 0 <= k < n && k < |attempts| ==> !attempts[k].cancelledBeforeRun
  }

  /** Run `i` ends DoCommand's retries: its set-up succeeds and then it
      either panics on a registered folder or its RPC succeeds. */
  predicate EndsRetries(registered: bool, attempts: seq<AttemptEnv>, arg: RegisterForUpdatesArg, i: nat)
    requires i < |attempts|
  {
    SetupSucceeds(attempts[i])
    && (StillRegistered(registered, attempts, i + 1) || attempts[i].registerForUpdates(arg).None?)
  }

  /** The first run, from `from` on, that ends the retries, or |attempts|
      when none does. */
  function FirstFinalRun(registered: bool, attempts: seq<AttemptEnv>, arg: RegisterForUpdatesArg, from: nat): (j: nat)
    requires from <= |attempts|
    ensures from <= j <= |attempts|
    ensures forall i :: from <= i < j ==> !EndsRetries(registered, attempts, arg, i)
    ensures j < |attempts| ==> EndsRetries(registered, attempts, arg, j)
    decreases |attempts| - from
  {
    if from == |attempts| || EndsRetries(registered, attempts, arg, from) then from
    else FirstFinalRun(registered, attempts, arg, from + 1)
  }

  /** The first run that ends the retries is the `i` that no earlier run
      ends and that either ends them itself or is past the last run. */
  lemma FirstFinalRunIs(registered: bool, attempts: seq<AttemptEnv>, arg: RegisterForUpdatesArg, i: nat)
    requires i <= |attempts|
    requires forall k :: 0 <= k < i ==> !EndsRetries(registered, attempts, arg, k)
    requires i < |attempts| ==> EndsRetries(registered, attempts, arg, i)
    ensures FirstFinalRun(registered, attempts, arg, 0) == i
  {
  }

  /** For a folder not registered before the call, a run ends the retries
      exactly when it returns nil. */
  lemma FreshFolderEndsOnNil(attempts: seq<AttemptEnv>, arg: RegisterForUpdatesArg, k: nat)
    requires k < |attempts|
    ensures EndsRetries(false, attempts, arg, k) <==> AttemptError(attempts[k], arg).None?
  {
  }

  /** Run `k` meets a disconnection that clears the registry: one before
      the run, or one during its RPC when the run gets that far (its set-up
      succeeds and it does not panic on a still-registered folder). */
  predicate ClearsRegistry(registered: bool, attempts: seq<AttemptEnv>, k: nat)
    requires k < |attempts|
  {
    || attempts[k].cancelledBeforeRun
    || (attempts[k].cancelledDuringRpc && SetupSucceeds(attempts[k])
        && !StillRegistered(registered, attempts, k + 1))
  }

  /** Some run among 0..n-1 meets a disconnection that clears the registry. */
  predicate Disturbed(registered: bool, attempts: seq<AttemptEnv>, n: nat)
  {
    exists k :: 0 <= k < n && k < |attempts| && ClearsRegistry(registered, attempts, k)
  }

  /** Every channel registered in `before` is either still registered under
      the same folder or has been told of the disconnection. */
  ghost predicate KeptOrDisconnected(before: map<TlfID, Chan>, after: map<TlfID, Chan>)
    reads before.Values
  {
    forall id :: id in before ==> (id in after && after[id] == before[id]) || before[id].Disconnected()
  }

  /** Every channel registered in `before` has been told of the disconnection. */
  ghost predicate AllDisconnected(before: map<TlfID, Chan>)
    reads before.Values
  {
    forall id :: id in before ==> before[id].Disconnected()
  }

  class MDServerRemote {
    const config: Config
    /** One waiting channel per folder (observers, guarded by observerMu). */
    var observers: map<TlfID, Chan>
    /** The cancel function of the running ping ticker, if any (tickerCancel). */
    var tickerCancel: Option<Ticker>
    /** The generation the next ticker will carry; every context.WithCancel
        yields a cancel function distinct from all earlier ones. */
    var nextGeneration: nat
    /** The ticker goroutines whose context has not been cancelled. */
    ghost var liveTickers: set<nat>

    /** The registry holds only distinct, open, empty one-slot channels, so
        the send and close in signalObserverLocked neither block nor panic;
        and the only live ticker is the one whose cancel function is kept. */
    ghost predicate Valid()
      reads this, observers.Values
    {
      && (forall id :: id in observers ==> observers[id].Idle())
      && (forall id, id' :: id in observers && id' in observers && id != id' ==> observers[id] != observers[id'])
      && liveTickers == (if tickerCancel.Some? then {tickerCancel.value.generation} else {})
      && (tickerCancel.Some? ==> tickerCancel.value.generation < nextGeneration && tickerCancel.value.intervalSeconds > 0)
    }

    /** Nothing is registered and no ticker runs. */
    ghost predicate Quiescent()
      reads this
    {
      observers == map[] && tickerCancel.None? && liveTickers == {}
    }

    /** NewMDServerRemote: an empty registry and no ticker. */
    constructor (config: Config)
      ensures Valid() && Quiescent() && this.config == config && nextGeneration == 0
    {
      this.config := config;
      observers := map[];
      tickerCancel := None;
      nextGeneration := 0;
      liveTickers := {};
    }

    /** resetPingTicker: cancel the running ticker, if any, then start a new
        one only for a positive interval. At most one ticker ever runs. */
    method ResetPingTicker(intervalSeconds: int)
      requires Valid()
      modifies this`tickerCancel, this`nextGeneration, this`liveTickers
      ensures Valid()
      ensures old(tickerCancel).Some? ==> old(tickerCancel).value.generation !in liveTickers
      ensures intervalSeconds <= 0 ==> tickerCancel.None? && liveTickers == {} && nextGeneration == old(nextGeneration)
      ensures intervalSeconds > 0 ==> nextGeneration == old(nextGeneration) + 1
      ensures intervalSeconds > 0 ==>
        tickerCancel == Some(Ticker(old(nextGeneration), intervalSeconds)) && liveTickers == {old(nextGeneration)}
      ensures |liveTickers| <= 1
    {
      if tickerCancel.Some? {
        liveTickers := liveTickers - {tickerCancel.value.generation};
        tickerCancel := None;
      }
      if intervalSeconds <= 0 {
        return;
      }
      tickerCancel := Some(Ticker(nextGeneration, intervalSeconds));
      liveTickers := liveTickers + {nextGeneration};
      nextGeneration := nextGeneration + 1;
    }

    /** OnConnect: sign a credential, authenticate with it, and start the
        ticker at the interval the server answers. A signing or
        authentication error is returned and leaves the ticker alone. The
        best-effort request for folders needing rekey is not modelled. */
    method OnConnect(signature: Result<string, Err>, authenticate: string -> Result<int, Err>)
      returns (err: Option<Err>)
      requires Valid()
      modifies this`tickerCancel, this`nextGeneration, this`liveTickers
      ensures Valid()
      ensures signature.Failure? ==>
        err == Some(signature.error) && tickerCancel == old(tickerCancel) && liveTickers == old(liveTickers)
      ensures signature.Success? && authenticate(signature.value).Failure? ==>
        err == Some(authenticate(signature.value).error)
        && tickerCancel == old(tickerCancel) && liveTickers == old(liveTickers)
      ensures signature.Success? && authenticate(signature.value).Success? ==>
        var interval := authenticate(signature.value).value;
        && err.None?
        && (interval > 0 ==> tickerCancel == Some(Ticker(old(nextGeneration), interval)) && liveTickers == {old(nextGeneration)})
        && (interval <= 0 ==> tickerCancel.None? && liveTickers == {})
    {
      if signature.Failure? {
        return Some(signature.error);
      }
      var pingIntervalSeconds := authenticate(signature.value);
      if pingIntervalSeconds.Failure? {
        return Some(pingIntervalSeconds.error);
      }
      ResetPingTicker(pingIntervalSeconds.value);
      err := None;
    }

    /** signalObserverLocked: deliver one value to a registered channel,
        close it and drop its entry; nothing else changes. */
    method SignalObserverLocked(observerChan: Chan, id: TlfID, err: Option<Err>)
      requires Valid() && id in observers && observers[id] == observerChan
      modifies this`observers, observerChan
      ensures Valid()
      ensures observers == old(observers) - {id}
      ensures observerChan.closed && observerChan.buffer == [err]
    {
      observerChan.Send(err);
      observerChan.Close();
      observers := observers - {id};
    }

    /** cancelObservers: every registered channel receives exactly one
        MDServerDisconnected and is closed, and the registry ends empty. */
    method CancelObservers()
      requires Valid()
      modifies this`observers, observers.Values
      ensures Valid()
      ensures observers == map[]
      ensures AllDisconnected(old(observers))
    {
      while observers != map[]
        invariant Valid()
        invariant forall id :: id in observers ==> id in old(observers) && observers[id] == old(observers)[id]
        invariant forall id :: id in old(observers) && id !in observers ==> old(observers)[id].Disconnected()
        decreases observers.Keys
      {
        var id :| id in observers;
        SignalObserverLocked(observers[id], id, Some(MDServerDisconnected));
      }
    }

    /** MetadataUpdate: a push naming an unparsable folder is a bad request
        and changes nothing; one naming a registered folder delivers nil to
        that folder's channel, closes it and removes only that entry; one
        naming an unregistered folder changes nothing. */
    method MetadataUpdate(folderID: string) returns (err: Option<Err>)
      requires Valid()
      modifies this`observers, observers.Values
      ensures Valid()
      ensures var id := config.parseTlfID(folderID);
        && (id == NullTlfID ==> err == Some(MDServerErrorBadRequest(InvalidFolderID)) && observers == old(observers))
        && (id != NullTlfID ==> err.None?)
        && (id != NullTlfID && id in old(observers) ==>
              observers == old(observers) - {id} && old(observers)[id].Updated())
        && (id !in old(observers) ==> observers == old(observers))
    {
      var parsed := FolderIDFromArg(config, folderID);
      if parsed.Failure? {
        return Some(parsed.error);
      }
      var id := parsed.value;
      if id !in observers {
        return None;
      }
      SignalObserverLocked(observers[id], id, None);
      err := None;
    }

    /** The first locked block of the RegisterForUpdate closure: a folder
        that already has an observer makes it panic without touching the
        registry; otherwise a fresh, open, empty one-slot channel is
        installed under the folder. */
    method InstallObserver(id: TlfID) returns (out: Outcome<Chan>)
      requires Valid()
      modifies this`observers
      ensures Valid()
      ensures id in old(observers) ==> out == Panic(DoubleRegistration(config, id)) && observers == old(observers)
      ensures id !in old(observers) ==>
        out.Return? && fresh(out.value) && out.value.Idle() && observers == old(observers)[id := out.value]
    {
      if id in observers {
        return Panic(DoubleRegistration(config, id));
      }
      var c := new Chan(1);
      observers := observers[id := c];
      out := Return(c);
    }

    /** The second locked block of the closure, run when the RPC failed: the
        folder's channel, if it is still registered (a disconnection may have
        cleared it), is closed without a value and removed. */
    method WithdrawObserver(id: TlfID)
      requires Valid()
      modifies this`observers, if id in observers then {observers[id]} else {}
      ensures Valid()
      ensures observers == old(observers) - {id}
      ensures id in old(observers) ==> old(observers)[id].Withdrawn()
    {
      if id in observers {
        var updateChan := observers[id];
        updateChan.Close();
        observers := observers - {id};
      }
    }

    /** The body of the closure RegisterForUpdate hands to DoCommand. It
        returns the error of the server set-up or of the RPC, and also the
        channel it installed (the `c` the Go closure assigns), if any. */
    method RunClosure(id: TlfID, arg: RegisterForUpdatesArg, env: AttemptEnv)
      returns (out: Outcome<Option<Err>>, installed: Chan?)
      requires Valid()
      modifies this`observers, observers.Values
      ensures Valid()
      ensures !SetupSucceeds(env) ==>
        out == Return(ServerSetupError(env.registerErr, env.runErr)) && installed == null
        && observers == old(observers)
      ensures SetupSucceeds(env) && id in old(observers) ==>
        out == Panic(DoubleRegistration(config, id)) && installed == null && observers == old(observers)
      ensures SetupSucceeds(env) && id !in old(observers) ==>
        var rpcErr := env.registerForUpdates(arg);
        && out == Return(rpcErr) && installed != null && fresh(installed)
        && (env.cancelledDuringRpc ==>
              observers == map[] && installed.Disconnected() && AllDisconnected(old(observers)))
        && (!env.cancelledDuringRpc && rpcErr.None? ==>
              observers == old(observers)[id := installed] && installed.Idle())
        && (!env.cancelledDuringRpc && rpcErr.Some? ==>
              observers == old(observers) && installed.Withdrawn())
    {
      var setupErr := ServerSetupError(env.registerErr, env.runErr);
      if setupErr.Some? {
        return Return(setupErr), null;
      }
      var registered := InstallObserver(id);
      if registered.Panic? {
        return Panic(registered.message), null;
      }
      installed := registered.value;
      if env.cancelledDuringRpc {
        ghost var registry := observers;
        CancelObservers();
        assert registry[id] == installed;
        assert forall k :: k in old(observers) ==> k in registry && registry[k] == old(observers)[k];
      }
      var rpcErr := env.registerForUpdates(arg);
      if rpcErr.Some? {
        WithdrawObserver(id);
      }
      out := Return(rpcErr);
    }

    /** One run as DoCommand makes it: the registry clearing of a
        disconnection that came before the run, if one did, then the
        closure body. */
    method RegisterAttempt(id: TlfID, arg: RegisterForUpdatesArg, env: AttemptEnv)
      returns (out: Outcome<Option<Err>>, installed: Chan?)
      requires Valid()
      modifies this`observers, observers.Values
      ensures Valid()
      ensures env.cancelledBeforeRun ==> AllDisconnected(old(observers))
      ensures var before := if env.cancelledBeforeRun then map[] else old(observers);
        && (!SetupSucceeds(env) ==>
              out == Return(ServerSetupError(env.registerErr, env.runErr)) && installed == null
              && observers == before)
        && (SetupSucceeds(env) && id in before ==>
              out == Panic(DoubleRegistration(config, id)) && installed == null && observers == before)
        && (SetupSucceeds(env) && id !in before ==>
              var rpcErr := env.registerForUpdates(arg);
              && out == Return(rpcErr) && installed != null && fresh(installed)
              && (env.cancelledDuringRpc ==>
                    observers == map[] && installed.Disconnected() && AllDisconnected(old(observers)))
              && (!env.cancelledDuringRpc && rpcErr.None? ==>
                    observers == before[id := installed] && installed.Idle())
              && (!env.cancelledDuringRpc && rpcErr.Some? ==>
                    observers == before && installed.Withdrawn()))
    {
      if env.cancelledBeforeRun {
        CancelObservers();
      }
      out, installed := RunClosure(id, arg, env);
    }

    /** Before run `i` of RegisterForUpdate, given the registry `start` it
        began with: only entries of `start` remain, each entry of `start`
        is kept or was told of a disconnection, the folder is registered
        exactly while no disconnection has cleared an entry it had before
        the call; with no disconnection so far the registry is unchanged,
        and after one it is empty and every entry of `start` was told. */
    ghost predicate Retrying(start: map<TlfID, Chan>, id: TlfID, registered: bool, attempts: seq<AttemptEnv>, i: nat)
      reads this, start.Values
    {
      && (forall k :: k in observers ==> k in start && observers[k] == start[k])
      && KeptOrDisconnected(start, observers)
      && (id in observers <==> StillRegistered(registered, attempts, i))
      && (StillRegistered(registered, attempts, i) ==> observers == start)
      && (!Disturbed(registered, attempts, i) ==> observers == start)
      && (Disturbed(registered, attempts, i) ==> observers == map[] && AllDisconnected(start))
    }

    /** After run `i` ended the retries with `out` and channel `c`: a panic
        on a folder still registered leaves the registry as it began; a nil
        result returns the channel run `i` installed, registered and idle
        unless a disconnection during its RPC told it. With no disconnection
        up to run `i` the entries of `start` are kept; after one, every entry
        of `start` was told and only the folder's own entry can remain. */
    ghost predicate Concluded(start: map<TlfID, Chan>, id: TlfID, registered: bool, attempts: seq<AttemptEnv>,
                              i: nat, out: Outcome<Option<Err>>, c: Chan?)
      requires i < |attempts|
      reads this, start.Values, c
    {
      && KeptOrDisconnected(start, observers)
      && (forall k :: k in observers && k != id ==> k in start && observers[k] == start[k])
      && (StillRegistered(registered, attempts, i + 1) ==>
            out == Panic(DoubleRegistration(config, id)) && c == null && observers == start)
      && (!StillRegistered(registered, attempts, i + 1) ==>
            && out == Return(None) && c != null
            && (attempts[i].cancelledDuringRpc ==> id !in observers && c.Disconnected())
            && (!attempts[i].cancelledDuringRpc ==> id in observers && observers[id] == c && c.Idle()))
      && (!Disturbed(registered, attempts, i + 1) ==>
            forall k :: k in start ==> k in observers && observers[k] == start[k])
      && (Disturbed(registered, attempts, i + 1) ==>
            AllDisconnected(start) && forall k :: k in observers ==> k == id)
    }

    /** One turn of DoCommand's retry loop inside RegisterForUpdate: make
        run `i` and report whether it ends the retries. */
    method RetryTurn(id: TlfID, arg: RegisterForUpdatesArg, attempts: seq<AttemptEnv>, i: nat,
                     ghost registered: bool, ghost start: map<TlfID, Chan>)
      returns (result: Outcome<Option<Err>>, installed: Chan?, ended: bool)
      requires i < |attempts|
      requires Valid() && Retrying(start, id, registered, attempts, i)
      modifies this`observers, observers.Values
      ensures Valid()
      ensures ended <==> EndsRetries(registered, attempts, arg, i)
      ensures !ended ==>
        Retrying(start, id, registered, attempts, i + 1) && result == Return(AttemptError(attempts[i], arg))
        && installed == null
      ensures ended ==>
        Concluded(start, id, registered, attempts, i, result, installed)
        && (installed != null ==> fresh(installed))
    {
      assert StillRegistered(registered, attempts, i + 1) <==>
        StillRegistered(registered, attempts, i) && !attempts[i].cancelledBeforeRun;
      assert Disturbed(registered, attempts, i + 1) <==>
        Disturbed(registered, attempts, i) || ClearsRegistry(registered, attempts, i);
      result, installed := RegisterAttempt(id, arg, attempts[i]);
      ended := result.Panic? || result.value.None?;
      if !ended {
        installed := null;
      }
    }

    /** RegisterForUpdate. DoCommand runs the closure once per element of
        `attempts`, in order, until a run returns nil or panics; when it
        never runs the closure it returns `abortErr`. Every run sends the
        same request. The run that ends the retries is the first run whose
        set-up succeeds and which then either finds the folder still
        registered (it panics: a registration is never overwritten) or whose
        RPC succeeds (the channel it installed is returned, registered and
        idle unless a disconnection during that RPC told it). When no run
        ends the retries, no channel is returned, the error is that of the
        last run, and the folder is registered exactly when it was before
        and no disconnection cleared the registry. A disconnection that
        clears the registry tells every observer registered before the
        call; without one, those observers stay registered. */
    method RegisterForUpdate(id: TlfID, currHead: MetadataRevision, attempts: seq<AttemptEnv>, abortErr: Err)
      returns (out: Outcome<Option<Err>>, c: Chan?)
      requires Valid()
      modifies this`observers, observers.Values
      ensures Valid()
      ensures KeptOrDisconnected(old(observers), observers)
      ensures forall k :: k in observers && k != id ==> k in old(observers) && observers[k] == old(observers)[k]
      ensures var arg := RegisterForUpdatesArgs(config, id, currHead);
        var registered := id in old(observers);
        var j := FirstFinalRun(registered, attempts, arg, 0);
        && (j == |attempts| ==>
              && c == null
              && out == Return(if |attempts| == 0 then Some(abortErr) else AttemptError(attempts[|attempts| - 1], arg))
              && (id in observers <==> StillRegistered(registered, attempts, |attempts|))
              && (!Disturbed(registered, attempts, |attempts|) ==> observers == old(observers))
              && (Disturbed(registered, attempts, |attempts|) ==>
                    observers == map[] && AllDisconnected(old(observers))))
        && (j < |attempts| && StillRegistered(registered, attempts, j + 1) ==>
              out == Panic(DoubleRegistration(config, id)) && c == null && observers == old(observers))
        && (j < |attempts| && !StillRegistered(registered, attempts, j + 1) ==>
              && out == Return(None) && c != null && fresh(c)
              && (attempts[j].cancelledDuringRpc ==> id !in observers && c.Disconnected())
              && (!attempts[j].cancelledDuringRpc ==> id in observers && observers[id] == c && c.Idle()))
        && (j < |attempts| && !Disturbed(registered, attempts, j + 1) ==>
              forall k :: k in old(observers) ==> k in observers && observers[k] == old(observers)[k])
        && (j < |attempts| && Disturbed(registered, attempts, j + 1) ==>
              AllDisconnected(old(observers)) && forall k :: k in observers ==> k == id)
      ensures id !in old(observers) ==>
        (out == Return(None) <==>
           exists j :: 0 <= j < |attempts| && AttemptError(attempts[j], RegisterForUpdatesArgs(config, id, currHead)).None?)
    {
      var arg := RegisterForUpdatesArgs(config, id, currHead);
      ghost var registered := id in observers;
      out, c := Return(Some(abortErr)), null;
      var i := 0;
      var ended := false;
      while i < |attempts| && !ended
        invariant 0 <= i <= |attempts|
        invariant Valid()
        invariant forall k :: 0 <= k < i ==> !EndsRetries(registered, attempts, arg, k)
        invariant !ended ==>
          && Retrying(old(observers), id, registered, attempts, i)
          && (i == 0 ==> out == Return(Some(abortErr)))
          && (i > 0 ==> out == Return(AttemptError(attempts[i - 1], arg)))
          && c == null
        invariant ended ==>
          && i < |attempts| && EndsRetries(registered, attempts, arg, i)
          && Concluded(old(observers), id, registered, attempts, i, out, c)
          && (c != null ==> fresh(c))
        decreases |attempts| - i, if ended then 0 else 1
      {
        var result, installed, last := RetryTurn(id, arg, attempts, i, registered, old(observers));
        out, c, ended := result, installed, last;
        if !ended {
          i := i + 1;
        }
      }
      FirstFinalRunIs(registered, attempts, arg, i);
      if !registered {
        if ended {
          FreshFolderEndsOnNil(attempts, arg, i);
        } else {
          forall k | 0 <= k < |attempts|
            ensures AttemptError(attempts[k], arg).Some?
          {
            FreshFolderEndsOnNil(attempts, arg, k);
          }
        }
      }
    }

    /** OnConnectError: after a failed connection attempt no observer is
        left waiting (each was told of the disconnection) and no ticker runs. */
    method OnConnectError(err: Err, waitSeconds: int)
      requires Valid()
      modifies this`observers, this`tickerCancel, this`nextGeneration, this`liveTickers, observers.Values
      ensures Valid() && Quiescent() && nextGeneration == old(nextGeneration)
      ensures AllDisconnected(old(observers))
    {
      CancelObservers();
      ResetPingTicker(0);
    }

    /** OnDisconnected: the same clean-up as OnConnectError. */
    method OnDisconnected()
      requires Valid()
      modifies this`observers, this`tickerCancel, this`nextGeneration, this`liveTickers, observers.Values
      ensures Valid() && Quiescent() && nextGeneration == old(nextGeneration)
      ensures AllDisconnected(old(observers))
    {
      CancelObservers();
      ResetPingTicker(0);
    }

    /** Shutdown: after the connection is closed, every observer is told of
        the disconnection and the ticker is cancelled. */
    method Shutdown()
      requires Valid()
      modifies this`observers, this`tickerCancel, this`nextGeneration, this`liveTickers, observers.Values
      ensures Valid() && Quiescent() && nextGeneration == old(nextGeneration)
      ensures AllDisconnected(old(observers))
    {
      CancelObservers();
      ResetPingTicker(0);
    }
  }
}
