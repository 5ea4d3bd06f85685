/** Reading metadata records from the server: the request `get` builds, how
    it checks and decodes the response, and the two callers that keep only
    the first record. */
module MdGet {
  import opened Wrappers
  import opened MdTypes

  /** The GetMetadata request. Exactly one of folderID and folderHandle is
      filled in; the other keeps Go's zero value. */
  datatype GetMetadataArg = GetMetadataArg(
    startRevision: MetadataRevision,
    stopRevision: MetadataRevision,
    branchID: BranchID,
    unmerged: bool,
    folderID: string,
    folderHandle: Bytes)

  datatype GetMetadataResponse = GetMetadataResponse(folderID: string, mdBlocks: seq<Bytes>)

  /** The request `get` sends, or the argument error it returns without
      sending anything when it has neither a folder ID nor a handle. The
      folder ID takes precedence; the handle's bytes are sent only for the
      null ID. */
  function GetMetadataArgs(config: Config, id: TlfID, handle: Option<TlfHandle>, bid: BranchID,
                           mStatus: MergeStatus, start: MetadataRevision, stop: MetadataRevision)
    : (r: Result<GetMetadataArg, Err>)
    ensures r.Failure? <==> id == NullTlfID && handle.None?
    ensures r.Failure? ==> r.error == MDInvalidGetArguments(id, handle)
    ensures r.Success? ==>
      && r.value.startRevision == start && r.value.stopRevision == stop
      && r.value.branchID == bid && (r.value.unmerged <==> mStatus == Unmerged)
    ensures r.Success? && id == NullTlfID ==>
      r.value.folderHandle == config.handleToBytes(handle.value) && r.value.folderID == ""
    ensures r.Success? && id != NullTlfID ==>
      r.value.folderID == config.tlfIDString(id) && r.value.folderHandle == []
  {
    if id == NullTlfID && handle.None? then
      Failure(MDInvalidGetArguments(id, handle))
    else
      var arg := GetMetadataArg(start, stop, bid, mStatus == Unmerged, "", []);
      if id == NullTlfID then
        Success(arg.(folderHandle := config.handleToBytes(handle.value)))
      else
        Success(arg.(folderID := config.tlfIDString(id)))
  }

  /** The index of the first block the codec cannot decode, or the number
      of blocks when it decodes them all. */
  function FirstUndecodable(decode: Bytes -> Result<RootMetadataSigned, Err>, blocks: seq<Bytes>): (k: nat)
    ensures k <= |blocks|
    ensures forall j :: 0 <= j < k ==> decode(blocks[j]).Success?
    ensures k < |blocks| ==> decode(blocks[k]).Failure?
  {
    if blocks == [] || decode(blocks[0]).Failure? then 0
    else 1 + FirstUndecodable(decode, blocks[1..])
  }

  /** What `get` returns for a response the server did send: the folder ID
      it names, which must parse; then one slot per block, the decoded
      record for each block before the first undecodable one and nil from
      there on, with that block's decoding error. */
  ghost predicate RepliedWith(config: Config, response: GetMetadataResponse,
                              rid: TlfID, rmdses: seq<Option<RootMetadataSigned>>, err: Option<Err>)
  {
    var blocks := response.mdBlocks;
    var k := FirstUndecodable(config.decodeMD, blocks);
    && rid == config.parseTlfID(response.folderID)
    && (rid == NullTlfID ==> rmdses == [] && err == Some(MDInvalidTlfID(response.folderID)))
    && (rid != NullTlfID ==>
          && |rmdses| == |blocks|
          && (forall j :: 0 <= j < k ==> rmdses[j] == Some(config.decodeMD(blocks[j]).value))
          && (forall j :: k <= j < |blocks| ==> rmdses[j].None?)
          && err == (if k < |blocks| then Some(config.decodeMD(blocks[k]).error) else None))
  }

  /** get: validate the arguments, send the request through `getMetadata`
      (the GetMetadata RPC), check the folder ID of the response and decode
      its blocks into a fresh array. On success the result holds one decoded
      record per block, in the order of the blocks. */
  method Get(config: Config, getMetadata: GetMetadataArg -> Result<GetMetadataResponse, Err>,
             id: TlfID, handle: Option<TlfHandle>, bid: BranchID, mStatus: MergeStatus,
             start: MetadataRevision, stop: MetadataRevision)
    returns (rid: TlfID, rmdses: seq<Option<RootMetadataSigned>>, err: Option<Err>)
    ensures id == NullTlfID && handle.None? ==>
      rid == id && rmdses == [] && err == Some(MDInvalidGetArguments(id, handle))
    ensures !(id == NullTlfID && handle.None?) ==>
      match getMetadata(GetMetadataArgs(config, id, handle, bid, mStatus, start, stop).value)
      case Failure(e) => rid == id && rmdses == [] && err == Some(e)
      case Success(response) => RepliedWith(config, response, rid, rmdses, err)
    ensures err.None? ==>
      && rid != NullTlfID
      && exists response :: getMetadata(GetMetadataArgs(config, id, handle, bid, mStatus, start, stop).value) == Success(response)
          && |rmdses| == |response.mdBlocks|
          && forall j :: 0 <= j < |rmdses| ==> rmdses[j].Some? && config.decodeMD(response.mdBlocks[j]) == Success(rmdses[j].value)
  {
    var arg := GetMetadataArgs(config, id, handle, bid, mStatus, start, stop);
    if arg.Failure? {
      return id, [], Some(arg.error);
    }
    var response := getMetadata(arg.value);
    if response.Failure? {
      return id, [], Some(response.error);
    }
    var folderID := response.value.folderID;
    var blocks := response.value.mdBlocks;
    rid := config.parseTlfID(folderID);
    if rid == NullTlfID {
      return rid, [], Some(MDInvalidTlfID(folderID));
    }
    var decoded := new Option<RootMetadataSigned>[|blocks|](_ => None);
    var i := 0;
    while i < |blocks|
      invariant 0 <= i <= |blocks| == decoded.Length
      invariant forall j :: 0 <= j < i ==> config.decodeMD(blocks[j]).Success?
      invariant forall j :: 0 <= j < i ==> decoded[j] == Some(config.decodeMD(blocks[j]).value)
      invariant forall j :: i <= j < decoded.Length ==> decoded[j].None?
    {
      var rmds := config.decodeMD(blocks[i]);
      if rmds.Failure? {
        return rid, decoded[..], Some(rmds.error);
      }
      decoded[i] := Some(rmds.value);
      i := i + 1;
    }
    rmdses, err := decoded[..], None;
  }

  /** What the first-record callers return for a response the server did
      send: an error if `get` reports one, otherwise the first decoded
      record, or nil when the response holds no blocks. */
  ghost predicate FirstRecordOf(config: Config, response: GetMetadataResponse,
                                rid: TlfID, rmd: Option<RootMetadataSigned>, err: Option<Err>)
  {
    var blocks := response.mdBlocks;
    var k := FirstUndecodable(config.decodeMD, blocks);
    && rid == config.parseTlfID(response.folderID)
    && (rid == NullTlfID ==> rmd.None? && err == Some(MDInvalidTlfID(response.folderID)))
    && (rid != NullTlfID && k < |blocks| ==> rmd.None? && err == Some(config.decodeMD(blocks[k]).error))
    && (rid != NullTlfID && k == |blocks| ==>
          err.None? && rmd == (if blocks == [] then None else Some(config.decodeMD(blocks[0]).value)))
  }

  /** GetForHandle: `get` by handle alone, for the merged or unmerged head,
      keeping only the first record. Without a handle it is the argument
      error; otherwise the request carries the handle's bytes. */
  method GetForHandle(config: Config, getMetadata: GetMetadataArg -> Result<GetMetadataResponse, Err>,
                      handle: Option<TlfHandle>, mStatus: MergeStatus)
    returns (rid: TlfID, rmd: Option<RootMetadataSigned>, err: Option<Err>)
    ensures handle.None? ==> rid == NullTlfID && rmd.None? && err == Some(MDInvalidGetArguments(NullTlfID, None))
    ensures handle.Some? ==>
      var arg := GetMetadataArg(MetadataRevisionUninitialized, MetadataRevisionUninitialized, NullBranchID,
                                mStatus == Unmerged, "", config.handleToBytes(handle.value));
      match getMetadata(arg)
      case Failure(e) => rid == NullTlfID && rmd.None? && err == Some(e)
      case Success(response) => FirstRecordOf(config, response, rid, rmd, err)
  {
    var rmdses;
    rid, rmdses, err := Get(config, getMetadata, NullTlfID, handle, NullBranchID, mStatus,
                            MetadataRevisionUninitialized, MetadataRevisionUninitialized);
    if err.Some? {
      return rid, None, err;
    }
    if |rmdses| == 0 {
      return rid, None, None;
    }
    rmd := rmdses[0];
  }

  /** GetForTLF: `get` by folder ID alone on a branch, keeping only the
      first record. The null ID is the argument error; otherwise the
      request carries the ID's string form. */
  method GetForTLF(config: Config, getMetadata: GetMetadataArg -> Result<GetMetadataResponse, Err>,
                   id: TlfID, bid: BranchID, mStatus: MergeStatus)
    returns (rmd: Option<RootMetadataSigned>, err: Option<Err>)
    ensures id == NullTlfID ==> rmd.None? && err == Some(MDInvalidGetArguments(NullTlfID, None))
    ensures id != NullTlfID ==>
      var arg := GetMetadataArg(MetadataRevisionUninitialized, MetadataRevisionUninitialized, bid,
                                mStatus == Unmerged, config.tlfIDString(id), []);
      match getMetadata(arg)
      case Failure(e) => rmd.None? && err == Some(e)
      case Success(response) => FirstRecordOf(config, response, config.parseTlfID(response.folderID), rmd, err)
  {
    var rid, rmdses;
    rid, rmdses, err := Get(config, getMetadata, id, None, bid, mStatus,
                            MetadataRevisionUninitialized, MetadataRevisionUninitialized);
    if err.Some? {
      return None, err;
    }
    if |rmdses| == 0 {
      return None, None;
    }
    rmd := rmdses[0];
  }
}
