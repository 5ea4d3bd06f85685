/** The pure decisions of the metadata-server client: which errors throttle,
    how a server push validates its folder ID, and which errors of the RPC
    server set-up abort a registration attempt. */
module MdProtocol {
  import opened Wrappers
  import opened MdTypes

  const InvalidFolderID: string := "Invalid folder ID"
  const DoubleRegistrationPrefix: string := "Attempted double-registration for folder: "

  /** The connection backs off instead of reconnecting exactly for errors of
      the server's throttle type, whatever their message; nil never throttles. */
  function ShouldThrottle(err: Option<Err>): (throttle: bool)
    ensures throttle ==> err.Some?
    ensures throttle <==> exists reason :: err == Some(MDServerErrorThrottle(reason))
  {
    match err
    case None => false
    case Some(e) => e.MDServerErrorThrottle?
  }

  /** The folder-ID check that both server-push handlers run first: an ID
      that parses to NullTlfID is a bad request, any other is accepted as
      parsed. */
  function FolderIDFromArg(config: Config, folderID: string): (r: Result<TlfID, Err>)
    ensures r.Success? <==> config.parseTlfID(folderID) != NullTlfID
    ensures r.Success? ==> r.value == config.parseTlfID(folderID)
    ensures r.Failure? ==> r.error == MDServerErrorBadRequest(InvalidFolderID)
  {
    var id := config.parseTlfID(folderID);
    if id == NullTlfID then Failure(MDServerErrorBadRequest(InvalidFolderID)) else Success(id)
  }

  /** The rekey notice is accepted (and only logged) for every parsable
      folder ID; the registry is not consulted. */
  function FolderNeedsRekey(config: Config, folderID: string): (err: Option<Err>)
    ensures err.None? <==> config.parseTlfID(folderID) != NullTlfID
    ensures err.Some? ==> err.value == MDServerErrorBadRequest(InvalidFolderID)
  {
    match FolderIDFromArg(config, folderID)
    case Failure(e) => Some(e)
    case Success(_) => None
  }

  /** The error of registering the update protocol with the local RPC
      server, with the harmless "already registered" case dropped. */
  function RegisterProtocolError(registerErr: Option<Err>): (r: Option<Err>)
    ensures r.None? <==> registerErr.None? || registerErr.value.AlreadyRegisteredError?
    ensures r.Some? ==> r == registerErr
  {
    match registerErr
    case None => None
    case Some(e) => if e.AlreadyRegisteredError? then None else registerErr
  }

  /** The error, if any, that ends a registration attempt before the
      observer is installed: registering the protocol comes first, then
      starting the server. */
  function ServerSetupError(registerErr: Option<Err>, runErr: Option<Err>): (r: Option<Err>)
    ensures r.None? <==> RegisterProtocolError(registerErr).None? && runErr.None?
    ensures RegisterProtocolError(registerErr).Some? ==> r == registerErr
    ensures RegisterProtocolError(registerErr).None? ==> r == runErr
  {
    var registered := RegisterProtocolError(registerErr);
    if registered.Some? then registered else runErr
  }

  /** The panic message for a second registration of the same folder: the
      fixed prefix followed by the folder's ID string. */
  function DoubleRegistration(config: Config, id: TlfID): (msg: string)
    ensures |msg| == |DoubleRegistrationPrefix| + |config.tlfIDString(id)|
    ensures msg[..|DoubleRegistrationPrefix|] == DoubleRegistrationPrefix
    ensures msg[|DoubleRegistrationPrefix|..] == config.tlfIDString(id)
  {
    DoubleRegistrationPrefix + config.tlfIDString(id)
  }
}
