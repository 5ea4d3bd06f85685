/** Short client runs of MDServerRemote, each checking one end-to-end
    behaviour from the contracts of the registry and ticker alone. */
module Scenarios {
  import opened Wrappers
  import opened MdTypes
  import opened MdProtocol
  import opened Channels
  import opened MdServerRemote

  /** A closure run whose server set-up and RPC both succeed, with no
      disconnection before or during it. */
  const Succeeds := AttemptEnv(false, None, None, _ => None, false)

  /** The revision the scenarios' callers already hold. */
  const Head := MetadataRevision(7)

  /** A client registers a folder it has not registered yet, with one
      undisturbed run that succeeds: the fresh channel is returned,
      registered and idle, and every other entry is kept. */
  method RegisterOnce(md: MDServerRemote, a: TlfID) returns (c: Chan)
    requires md.Valid() && a !in md.observers
    modifies md`observers, md.observers.Values
    ensures md.Valid() && fresh(c) && c.Idle()
    ensures md.observers == old(md.observers)[a := c]
  {
    var out, registered := md.RegisterForUpdate(a, Head, [Succeeds], RemoteError("canceled"));
    assert !Disturbed(false, [Succeeds], 1);
    c := registered;
  }

  /** Two folders are registered and a push arrives for the first only:
      its channel receives nil and is closed, the other stays open and empty. */
  method PushWakesOnlyItsFolder(config: Config, a: TlfID, b: TlfID, folderA: string)
    returns (chA: Chan, chB: Chan)
    requires a != b && config.parseTlfID(folderA) == a && a != NullTlfID
    ensures chA.Updated() && chB.Idle()
  {
    var md := new MDServerRemote(config);
    chA := RegisterOnce(md, a);
    chB := RegisterOnce(md, b);
    var err := md.MetadataUpdate(folderA);
    assert err.None?;
    // a second push for the same folder is a silent no-op
    err := md.MetadataUpdate(folderA);
    assert err.None? && b in md.observers;
  }

  /** Registering a folder twice panics, and the first registration keeps
      its channel. */
  method DoubleRegistrationPanics(config: Config, a: TlfID)
    returns (second: Outcome<Option<Err>>, first: Chan)
    ensures second == Panic(DoubleRegistration(config, a)) && first.Idle()
  {
    var md := new MDServerRemote(config);
    first := RegisterOnce(md, a);
    var c2;
    second, c2 := md.RegisterForUpdate(a, Head, [Succeeds], RemoteError("canceled"));
    assert md.observers[a] == first;
  }

  /** A run whose RPC fails is retried by DoCommand; the retry installs a
      new channel instead of panicking on the withdrawn one. */
  method RetryAfterFailedRpc(config: Config, a: TlfID, rpcErr: Err)
    returns (out: Outcome<Option<Err>>, c: Chan?)
    ensures out == Return(None) && c != null && c.Idle()
  {
    var md := new MDServerRemote(config);
    out, c := md.RegisterForUpdate(a, Head, [AttemptEnv(false, None, None, _ => Some(rpcErr), false), Succeeds], rpcErr);
  }

  /** A single run whose RPC fails: the call fails with that RPC's error,
      returns no channel and leaves the folder unregistered. */
  method FailedRpcReturnsItsError(config: Config, a: TlfID, rpcErr: Err)
    returns (out: Outcome<Option<Err>>, c: Chan?, registered: bool)
    ensures out == Return(Some(rpcErr)) && c == null && !registered
  {
    var md := new MDServerRemote(config);
    out, c := md.RegisterForUpdate(a, Head, [AttemptEnv(false, None, None, _ => Some(rpcErr), false)], rpcErr);
    registered := a in md.observers;
  }

  /** A disconnection during the first run's RPC, whose error DoCommand
      retries: the retry succeeds and its channel is registered and idle. */
  method RetryAfterInterruptedRpc(config: Config, a: TlfID, rpcErr: Err)
    returns (out: Outcome<Option<Err>>, c: Chan?)
    ensures out == Return(None) && c != null && c.Idle()
  {
    var md := new MDServerRemote(config);
    out, c := md.RegisterForUpdate(a, Head, [AttemptEnv(false, None, None, _ => Some(rpcErr), true), Succeeds], rpcErr);
  }

  /** A folder is registered, then a disconnection clears the registry
      before the next registration's run: that run does not panic, the old
      channel was told of the disconnection, and the new one is idle. */
  method ReRegisterAfterDisconnection(config: Config, a: TlfID)
    returns (first: Chan, out: Outcome<Option<Err>>, second: Chan?)
    ensures first.Disconnected() && out == Return(None) && second != null && second.Idle()
  {
    var md := new MDServerRemote(config);
    first := RegisterOnce(md, a);
    out, second := md.RegisterForUpdate(a, Head, [Succeeds.(cancelledBeforeRun := true)], RemoteError("canceled"));
  }

  /** Folder `a` waits; a disconnection comes before the run that
      registers folder `b`: `a`'s channel is told of it and dropped, and `b`
      ends registered alone with an idle channel. */
  method DisconnectBeforeRunTellsOthers(config: Config, a: TlfID, b: TlfID)
    returns (chA: Chan, out: Outcome<Option<Err>>, chB: Chan?)
    requires a != b
    ensures chA.Disconnected() && out == Return(None) && chB != null && chB.Idle()
  {
    var md := new MDServerRemote(config);
    chA := RegisterOnce(md, a);
    out, chB := md.RegisterForUpdate(b, Head, [Succeeds.(cancelledBeforeRun := true)], RemoteError("canceled"));
    assert ClearsRegistry(false, [Succeeds.(cancelledBeforeRun := true)], 0);
    assert md.observers.Keys == {b};
  }

  /** A server that accepts a registration only for this folder's ID
      string at the caller's head: every run asks for exactly that, so the
      first run succeeds. */
  method RequestNamesFolderAndHead(config: Config, a: TlfID, refusal: Err)
    returns (out: Outcome<Option<Err>>, c: Chan?)
    ensures out == Return(None) && c != null && c.Idle()
  {
    var md := new MDServerRemote(config);
    var expected := RegisterForUpdatesArg(config.tlfIDString(a), Head);
    var server := AttemptEnv(false, None, None, arg => if arg == expected then None else Some(refusal), false);
    out, c := md.RegisterForUpdate(a, Head, [server], refusal);
  }

  /** A disconnection while two folders wait tells both of them and leaves
      the registry empty. */
  method DisconnectWakesEveryone(config: Config, a: TlfID, b: TlfID)
    returns (chA: Chan, chB: Chan)
    requires a != b
    ensures chA.Disconnected() && chB.Disconnected()
  {
    var md := new MDServerRemote(config);
    chA := RegisterOnce(md, a);
    chB := RegisterOnce(md, b);
    ghost var waiting := md.observers;
    assert waiting[a] == chA && waiting[b] == chB;
    md.OnDisconnected();
    assert waiting[a].Disconnected() && waiting[b].Disconnected();
  }

  /** Two failed connection attempts, then one that authenticates with a
      30-second ping interval: exactly one ticker runs afterwards. */
  method ReconnectStartsOneTicker(config: Config, connectErr: Err, signature: string)
    returns (ticker: Option<Ticker>)
    ensures ticker == Some(Ticker(0, 30))
  {
    var md := new MDServerRemote(config);
    md.OnConnectError(connectErr, 1);
    md.OnConnectError(connectErr, 2);
    var err := md.OnConnect(Success(signature), _ => Success(30));
    assert err.None? && |md.liveTickers| == 1;
    ticker := md.tickerCancel;
  }
}
