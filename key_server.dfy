/** Storing the server halves of folder crypt keys: the nested
    user -> device -> half map is flattened into the list of a PutKeys
    request. */
module KeyServer {
  import opened Wrappers
  import opened MdTypes

  type ServerKeyHalves = map<UID, map<KID, TLFCryptKeyServerHalf>>

  /** `h` is the entry for one device of one user in `halves`, carrying that
      half's encoding. */
  ghost predicate IsKeyHalfOf(encode: TLFCryptKeyServerHalf -> Result<Bytes, Err>,
                              halves: ServerKeyHalves, h: KeyHalf)
  {
    h.user in halves && h.deviceKID in halves[h.user] && encode(halves[h.user][h.deviceKID]) == Success(h.key)
  }

  /** The codec encodes every half in the map. */
  ghost predicate AllEncodable(encode: TLFCryptKeyServerHalf -> Result<Bytes, Err>, halves: ServerKeyHalves)
  {
    forall user, device :: user in halves && device in halves[user] ==> encode(halves[user][device]).Success?
  }

  /** No (user, device) pair appears twice in the list. */
  ghost predicate OneHalfPerDevice(keyHalves: seq<KeyHalf>)
  {
    forall i, j :: 0 <= i < j < |keyHalves| ==>
      keyHalves[i].user != keyHalves[j].user || keyHalves[i].deviceKID != keyHalves[j].deviceKID
  }

  /** PutTLFCryptKeyServerHalves: encode every half, visiting users and
      their devices in whatever order the maps yield, and send the flat list
      through `putKeys` (the PutKeys RPC), returning its error. The first
      half that fails to encode ends the call with that error and no request
      is sent. `request` is the list that was sent, if one was. The list
      holds exactly one entry per (user, device) pair of the map, in some
      order. */
  method PutTLFCryptKeyServerHalves(config: Config, putKeys: seq<KeyHalf> -> Option<Err>,
                                    serverKeyHalves: ServerKeyHalves)
    returns (request: Option<seq<KeyHalf>>, err: Option<Err>)
    ensures request.None? <==> !AllEncodable(config.encodeServerHalf, serverKeyHalves)
    ensures request.None? ==>
      && err.Some?
      && exists user, device ::
           && user in serverKeyHalves && device in serverKeyHalves[user]
           && config.encodeServerHalf(serverKeyHalves[user][device]) == Failure(err.value)
    ensures request.Some? ==>
      && err == putKeys(request.value)
      && (forall h :: h in request.value <==> IsKeyHalfOf(config.encodeServerHalf, serverKeyHalves, h))
      && OneHalfPerDevice(request.value)
  {
    var encode := config.encodeServerHalf;
    var keyHalves: seq<KeyHalf> := [];
    var users := serverKeyHalves.Keys;
    while users != {}
      invariant users <= serverKeyHalves.Keys
      invariant forall h :: h in keyHalves <==> IsKeyHalfOf(encode, serverKeyHalves, h) && h.user !in users
      invariant OneHalfPerDevice(keyHalves)
      invariant forall u, d :: u in serverKeyHalves && u !in users && d in serverKeyHalves[u] ==>
        encode(serverKeyHalves[u][d]).Success?
      decreases users
    {
      var user :| user in users;
      var deviceMap := serverKeyHalves[user];
      var devices := deviceMap.Keys;
      while devices != {}
        invariant devices <= deviceMap.Keys
        invariant forall h :: h in keyHalves <==>
          IsKeyHalfOf(encode, serverKeyHalves, h) && (h.user !in users || (h.user == user && h.deviceKID !in devices))
        invariant OneHalfPerDevice(keyHalves)
        invariant forall u, d ::
          (u in serverKeyHalves && d in serverKeyHalves[u] && (u !in users || (u == user && d !in devices))) ==>
          encode(serverKeyHalves[u][d]).Success?
        decreases devices
      {
        var deviceKID :| deviceKID in devices;
        var keyHalf := encode(deviceMap[deviceKID]);
        if keyHalf.Failure? {
          return None, Some(keyHalf.error);
        }
        var entry := KeyHalf(user, deviceKID, keyHalf.value);
        assert entry !in keyHalves;
        keyHalves := keyHalves + [entry];
        devices := devices - {deviceKID};
      }
      forall d | d in serverKeyHalves[user] ensures encode(serverKeyHalves[user][d]).Success? {
        assert d !in devices;
      }
      users := users - {user};
    }
    request, err := Some(keyHalves), putKeys(keyHalves);
  }
}
