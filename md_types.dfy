/** The values the metadata-server client exchanges with its collaborators:
    folder identifiers, revisions, requests, records and errors. */
module MdTypes {
  import opened Wrappers

  type Bytes = seq<bv8>
  type UID = string
  type KID = string

  /** A top-level folder ID. NullTlfID is the zero value, and also what
      ParseTlfID yields for a string it cannot parse. */
  datatype TlfID = NullTlfID | TlfID(bytes: Bytes)

  datatype BranchID = NullBranchID | BranchID(bytes: Bytes)

  datatype MergeStatus = Merged | Unmerged

  datatype MetadataRevision = MetadataRevisionUninitialized | MetadataRevision(number: int)

  /** A folder named by its writers and readers rather than by its ID. */
  datatype TlfHandle = TlfHandle(writers: seq<UID>, readers: seq<UID>)

  /** A decoded signed metadata record; its inner structure is not modelled. */
  datatype RootMetadataSigned = RootMetadataSigned(contents: Bytes)

  datatype TLFCryptKeyServerHalf = TLFCryptKeyServerHalf(data: Bytes)

  /** One entry of a PutKeys request: the encoded server half of one device of one user. */
  datatype KeyHalf = KeyHalf(user: UID, deviceKID: KID, key: Bytes)

  /** The errors the client produces or tells apart. Any other error coming
      back from the RPC layer or the codec is a RemoteError. */
  datatype Err =
    | MDServerDisconnected
    | MDServerErrorBadRequest(reason: string)
    | MDServerErrorThrottle(reason: string)
    | MDInvalidGetArguments(id: TlfID, handle: Option<TlfHandle>)
    | MDInvalidTlfID(folderID: string)
    | AlreadyRegisteredError
    | RemoteError(description: string)

  /** The library calls the client makes but whose code is not part of this
      model: folder-ID parsing and printing, handle serialisation, and the
      codec for metadata records and key halves. */
  datatype Config = Config(
    parseTlfID: string -> TlfID,
    tlfIDString: TlfID -> string,
    handleToBytes: TlfHandle -> Bytes,
    decodeMD: Bytes -> Result<RootMetadataSigned, Err>,
    encodeServerHalf: TLFCryptKeyServerHalf -> Result<Bytes, Err>)

  /** How a Go call ends: it returns a value, or it panics with a message. */
  datatype Outcome<+T> = Return(value: T) | Panic(message: string)
}
