/**
  Players of the real-time session and `GetRTPlayerFromPeerId`, which finds the player
  behind a peer id (used when a peer connects or disconnects).
 */
module RtPlayers {
  import opened Wrappers

  /** The two fields of `RTPlayer` the lookup and its callers use. The peer id is a 32-bit
      integer in the source; it is only compared for equality, so its width does not matter. */
  datatype RTPlayer = RTPlayer(displayName: string, peerId: int)

  /** The real-time session: its player list, in order. */
  datatype SessionInfo = SessionInfo(playerList: seq<RTPlayer>)

  /** Position of the first player with the given peer id; `|players|` when there is none. */
  function FirstIndexOfPeer(players: seq<RTPlayer>, peerId: int): (k: nat)
    ensures k <= |players|
    ensures forall j :: 0 <= j < k ==> players[j].peerId != peerId
    ensures k < |players| ==> players[k].peerId == peerId
    decreases |players|
  {
    if |players| == 0 then 0
    else if players[0].peerId == peerId then 0
    else 1 + FirstIndexOfPeer(players[1..], peerId)
  }

  /** Reference meaning of the lookup: the first matching player of a valid session. */
  function PlayerWithPeer(session: Option<SessionInfo>, peerId: int): Option<RTPlayer>
  {
    match session
    case None => None
    case Some(info) =>
      var k := FirstIndexOfPeer(info.playerList, peerId);
      if k < |info.playerList| then Some(info.playerList[k]) else None
  }

  /** `GetRTPlayerFromPeerId`: scan the player list of a valid session in order and
      return the first player whose peer id matches; null when the session is invalid
      or no player matches. */
  method GetRTPlayerFromPeerId(session: Option<SessionInfo>, peerId: int) returns (r: Option<RTPlayer>)
    ensures session.None? ==> r.None?
    ensures r.None? <==> session.None? || forall i :: 0 <= i < |session.value.playerList| ==>
                                            session.value.playerList[i].peerId != peerId
    ensures r.Some? ==> exists i :: 0 <= i < |session.value.playerList|
                          && session.value.playerList[i] == r.value
                          && r.value.peerId == peerId
                          && forall j :: 0 <= j < i ==> session.value.playerList[j].peerId != peerId
    ensures r == PlayerWithPeer(session, peerId)
  {
    r := None;
    if session.Some? {
      var players := session.value.playerList;
      var i := 0;
      while i < |players|
        invariant 0 <= i <= |players|
        invariant forall j :: 0 <= j < i ==> players[j].peerId != peerId
        invariant i <= FirstIndexOfPeer(players, peerId)
      {
        if players[i].peerId == peerId {
          r := Some(players[i]);
          return;
        }
        i := i + 1;
      }
    }
  }
}
