/**
 * The lobby screen's controller as an object: one field per state slot, one
 * method per handler. Every handler is proved to keep the session invariant and
 * to move the state exactly as LobbySession.Step says.
 */
module LobbyController {
  import opened Options
  import opened LobbyInput
  import opened LobbyQuery
  import opened LobbySession

  /** A WebSocket as far as the controller uses it: its address and close(). */
  class Socket {
    const url: string
    var closeRequested: bool

    constructor (url: string)
      ensures this.url == url && !closeRequested
    {
      this.url := url;
      closeRequested := false;
    }

    /** Closing is idempotent. */
    method Close()
      modifies this
      ensures closeRequested
    {
      closeRequested := true;
    }
  }

  class Session {
    var lobbyCode: string
    var joinCode: string
    var playerName: string
    var players: seq<string>
    var socket: Socket?
    var isConnected: bool
    var errorMessage: string

    /** The slots as a LobbySession.State. */
    ghost function Snapshot(): State
      reads this, socket
    {
      State(lobbyCode, joinCode, playerName, players,
            if socket == null then None else Some(Connection(socket.url, socket.closeRequested)),
            isConnected, errorMessage)
    }

    ghost predicate Valid()
      reads this, socket
    {
      Inv(Snapshot())
    }

    /** The screen is entered with every slot at its initial value. */
    constructor ()
      ensures Valid() && Snapshot() == Initial
    {
      lobbyCode, joinCode, playerName, players := "", "", "", [];
      socket, isConnected, errorMessage := null, false, "";
    }

    /** The edit handler of the code field. */
    method TypeJoinCode(text: string)
      requires Valid()
      modifies this
      ensures Valid() && Snapshot() == Step(old(Snapshot()), CodeTyped(text))
      ensures joinCode == NormalizeJoinCode(text)
      ensures Snapshot() == old(Snapshot()).(joinCode := joinCode)
    {
      joinCode := NormalizeJoinCode(text);
    }

    /** The edit handler of the name field, which stores the text as it is. */
    method TypePlayerName(text: string)
      requires Valid()
      modifies this
      ensures Valid() && Snapshot() == Step(old(Snapshot()), NameTyped(text))
      ensures Snapshot() == old(Snapshot()).(playerName := text)
    {
      playerName := text;
    }

    /** The state-setting part of showError; the banner animation is not modelled. */
    method ShowError(message: string)
      modifies this
      ensures socket == old(socket) && Snapshot() == old(Snapshot()).(errorMessage := message)
    {
      errorMessage := message;
    }

    /** Creates the socket for `code` (empty for a host) and stores it, replacing the old one. */
    method ConnectToServer(baseUrl: string, code: string)
      modifies this
      ensures fresh(socket) && socket.url == ConnectionUrl(baseUrl, code, playerName)
      ensures Snapshot() == Connect(old(Snapshot()), baseUrl, code)
    {
      var newSocket := new Socket(ConnectionUrl(baseUrl, code, playerName));
      socket := newSocket;
    }

    /** The Join button: the code check, then the name check, then the connection. */
    method Join(baseUrl: string)
      requires Valid()
      modifies this
      ensures Valid() && Snapshot() == Step(old(Snapshot()), JoinPressed(baseUrl))
      ensures JoinRejection(old(joinCode), old(playerName)) == None ==>
        fresh(socket) && socket.url == ConnectionUrl(baseUrl, joinCode, playerName) &&
        Snapshot() == old(Snapshot()).(socket := Some(Connection(socket.url, false)))
      ensures JoinRejection(old(joinCode), old(playerName)) != None ==>
        socket == old(socket) &&
        Snapshot() == old(Snapshot()).(errorMessage := JoinRejection(old(joinCode), old(playerName)).value)
    {
      if !IsValidJoinCode(joinCode) {
        ShowError(InvalidCodeMessage);
        return;
      }
      if NameMissing(playerName) {
        ShowError(MissingNameMessage);
        return;
      }
      ConnectToServer(baseUrl, joinCode);
    }

    /** The Host button: the name check, then the connection without a code. */
    method Host(baseUrl: string)
      requires Valid()
      modifies this
      ensures Valid() && Snapshot() == Step(old(Snapshot()), HostPressed(baseUrl))
      ensures old(playerName) != "" ==>
        fresh(socket) && socket.url == ConnectionUrl(baseUrl, "", playerName) &&
        Snapshot() == old(Snapshot()).(socket := Some(Connection(socket.url, false)))
      ensures old(playerName) == "" ==>
        socket == old(socket) && Snapshot() == old(Snapshot()).(errorMessage := MissingNameMessage)
    {
      if NameMissing(playerName) {
        ShowError(MissingNameMessage);
        return;
      }
      ConnectToServer(baseUrl, "");
    }

    /**
     * Leaving: close the socket if there is one, then drop the connection flag,
     * the lobby code and the player list. The socket slot, the error message and
     * the two input slots keep their values.
     */
    method Leave()
      requires Valid()
      modifies this, socket
      ensures Valid() && Snapshot() == Step(old(Snapshot()), LeavePressed)
      ensures socket == old(socket) && (socket != null ==> socket.closeRequested)
      ensures old(isConnected) ==> socket != null && socket.closeRequested
      ensures !isConnected && lobbyCode == "" && players == []
      ensures errorMessage == old(errorMessage) && joinCode == old(joinCode) && playerName == old(playerName)
    {
      if socket != null {
        socket.Close();
      }
      isConnected := false;
      lobbyCode := "";
      players := [];
    }

    /** The socket's onopen handler. */
    method OnOpen()
      requires Valid() && socket != null
      modifies this
      ensures Valid() && Snapshot() == Step(old(Snapshot()), SocketOpen)
      ensures Snapshot() == old(Snapshot()).(isConnected := true)
    {
      isConnected := true;
    }

    /** The socket's onerror handler: a fixed message, and the connection flag drops. */
    method OnError()
      requires Valid() && socket != null
      modifies this
      ensures Valid() && Snapshot() == Step(old(Snapshot()), SocketError)
      ensures Snapshot() == old(Snapshot()).(errorMessage := TransportFailureMessage, isConnected := false)
    {
      ShowError(TransportFailureMessage);
      isConnected := false;
    }

    /** The socket's onclose handler: only the connection flag drops. */
    method OnClose()
      requires Valid() && socket != null
      modifies this
      ensures Valid() && Snapshot() == Step(old(Snapshot()), SocketClose)
      ensures Snapshot() == old(Snapshot()).(isConnected := false)
    {
      isConnected := false;
    }

    /**
     * handleSocketMessage: a player list replaces the lobby code and the roster;
     * an error reports the server's text and drops the connection flag; any
     * other type falls through the switch and changes nothing.
     */
    method OnMessage(m: Message)
      requires Valid() && socket != null
      modifies this
      ensures Valid() && Snapshot() == Step(old(Snapshot()), Received(m))
      ensures m.PlayerList? ==>
        Snapshot() == old(Snapshot()).(lobbyCode := m.partyCode, players := m.players)
      ensures m.Error? ==>
        Snapshot() == old(Snapshot()).(errorMessage := m.message, isConnected := false)
      ensures m.Other? ==> Snapshot() == old(Snapshot())
    {
      match m
      case PlayerList(code, list) =>
        lobbyCode := code;
        players := list;
      case Error(message) =>
        ShowError(message);
        isConnected := false;
      case Other =>
    }
  }
}
