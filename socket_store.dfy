/**
 * The legacy room socket store (store/socket-store.ts): a connected flag, the
 * current room, the player list pushed by the server, and guarded sends. The
 * simulated transport of that file is replaced by `Transport.Socket`; its
 * open, message and close callbacks are the event methods `OnOpen`,
 * `OnMessage` and `OnClose`.
 */
module Sockets {
  import opened Wrappers
  import opened GameTypes
  import opened Transport

  const RoomServerUrl := "wss://mock-hq-trivia-server.glitch.me"

  /** An inbound frame after JSON parsing. */
  datatype Frame =
    | Message(message: GameMessage)
    | UnknownType(tag: string)
    | Malformed

  /** How the `onmessage` switch treats a frame: only `playerUpdate` carries state. */
  function PlayersAfter(players: seq<Player>, frame: Frame): (r: seq<Player>)
    ensures frame.Message? && frame.message.PlayerUpdate? ==> r == frame.message.players
    ensures !(frame.Message? && frame.message.PlayerUpdate?) ==> r == players
  {
    match frame
    case Message(PlayerUpdate(ps)) => ps
    case _ => players
  }

  /** A JavaScript string is truthy when it is not empty. */
  predicate Truthy(s: Option<string>)
  {
    s.Some? && s.value != ""
  }

  class SocketStore {
    var socket: Socket?<GameMessage>
    var isConnected: bool
    var players: seq<Player>
    var roomId: Option<string>
    /** The user name and avatar captured by the handlers of the last `connect`. */
    var joinName: string
    var joinAvatar: string

    constructor ()
      ensures socket == null && !isConnected && players == [] && roomId == None
    {
      socket := null;
      isConnected := false;
      players := [];
      roomId := None;
      joinName := "";
      joinAvatar := "";
    }

    /** `sendMessage` transmits only when both hold. */
    predicate CanSend()
      reads this
    {
      socket != null && isConnected
    }

    /** Everything written to the current socket. */
    ghost function Outbox(): seq<GameMessage>
      reads this, socket
    {
      if socket == null then [] else socket.sent
    }

    /** The current socket is the one before the call, and its closed flag and close code are as they were. */
    twostate predicate CloseStateKept()
      reads this, socket
    {
      && socket == old(socket)
      && (socket != null ==> socket.closed == old(socket.closed) && socket.closeCode == old(socket.closeCode))
    }

    /** Closes the previous socket, if any, and installs a fresh one. */
    method Connect(username: string, avatar: string)
      modifies this, socket
      ensures old(socket) != null ==> old(socket).closed && old(socket).closeCode == None
      ensures old(socket) != null ==> old(socket).sent == old(socket.sent)
      ensures fresh(socket) && socket.url == RoomServerUrl && socket.sent == [] && !socket.closed
      ensures joinName == username && joinAvatar == avatar
      ensures isConnected == old(isConnected) && players == old(players) && roomId == old(roomId)
    {
      if socket != null {
        socket.Close(None);
      }
      socket := new Socket(RoomServerUrl);
      joinName, joinAvatar := username, avatar;
    }

    /** The open callback: marks the store connected, then announces the player. */
    method OnOpen(playerId: string)
      modifies this, socket
      ensures isConnected && CloseStateKept()
      ensures socket == old(socket) && players == old(players) && roomId == old(roomId)
      ensures joinName == old(joinName) && joinAvatar == old(joinAvatar)
      ensures Outbox() == old(Outbox())
          + (if socket != null then [JoinAsPlayer(Player(playerId, joinName, joinAvatar, 0, 0, 0, true, true))] else [])
    {
      isConnected := true;
      SendMessage(JoinAsPlayer(Player(playerId, joinName, joinAvatar, 0, 0, 0, true, true)));
    }

    /** The message callback. */
    method OnMessage(frame: Frame)
      modifies this
      ensures players == PlayersAfter(old(players), frame)
      ensures socket == old(socket) && isConnected == old(isConnected) && roomId == old(roomId)
      ensures joinName == old(joinName) && joinAvatar == old(joinAvatar)
    {
      match frame {
        case Message(PlayerUpdate(ps)) => players := ps;
        case _ =>
      }
    }

    /** The close callback. */
    method OnClose()
      modifies this
      ensures !isConnected
      ensures socket == old(socket) && players == old(players) && roomId == old(roomId)
      ensures joinName == old(joinName) && joinAvatar == old(joinAvatar)
    {
      isConnected := false;
    }

    method Disconnect()
      modifies this, socket
      ensures old(socket) == null ==> socket == null && isConnected == old(isConnected)
      ensures old(socket) != null ==> old(socket).closed && old(socket).closeCode == None
      ensures old(socket) != null ==> old(socket).sent == old(socket.sent) && socket == null && !isConnected
      ensures players == old(players) && roomId == old(roomId)
      ensures joinName == old(joinName) && joinAvatar == old(joinAvatar)
    {
      if socket != null {
        socket.Close(None);
        socket := null;
        isConnected := false;
      }
    }

    /** Sends when connected; otherwise the message is dropped. */
    method SendMessage(m: GameMessage)
      modifies socket
      ensures CloseStateKept()
      ensures Outbox() == old(Outbox()) + (if CanSend() then [m] else [])
    {
      if socket != null && isConnected {
        socket.Send(m);
      }
    }

    method JoinRoom(id: string)
      modifies this, socket
      ensures roomId == if old(isConnected) then Some(id) else old(roomId)
      ensures Outbox() == old(Outbox()) + (if old(CanSend()) then [GameMessage.JoinRoom(id)] else [])
      ensures socket == old(socket) && isConnected == old(isConnected) && players == old(players)
      ensures joinName == old(joinName) && joinAvatar == old(joinAvatar)
      ensures CloseStateKept()
    {
      if isConnected {
        SendMessage(GameMessage.JoinRoom(id));
        roomId := Some(id);
      }
    }

    /** Leaves only when a (non-empty) room id is set and the store is connected. */
    method LeaveRoom()
      modifies this, socket
      ensures roomId == if Truthy(old(roomId)) && old(isConnected) then None else old(roomId)
      ensures Outbox() == old(Outbox())
          + (if Truthy(old(roomId)) && old(CanSend()) then [Leave(old(roomId).value)] else [])
      ensures socket == old(socket) && isConnected == old(isConnected) && players == old(players)
      ensures joinName == old(joinName) && joinAvatar == old(joinAvatar)
      ensures CloseStateKept()
    {
      if Truthy(roomId) && isConnected {
        SendMessage(Leave(roomId.value));
        roomId := None;
      }
    }
  }
}
