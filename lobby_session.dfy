/**
 * The lobby session as a value: the state slots of the lobby screen, the events
 * that change them (edits, button presses, socket events, decoded server
 * messages) and the effect of each event. The class Session in
 * LobbyController is proved to follow Step; the lemmas here say what any run of
 * events leads to.
 */
module LobbySession {
  import opened Options
  import opened LobbyInput
  import opened LobbyQuery

  /** Reported on a transport error. */
  const TransportFailureMessage := "Failed to connect to the game server"

  /** An inbound message after decoding; every type other than the two handled ones is Other. */
  datatype Message =
    | PlayerList(partyCode: string, players: seq<string>)
    | Error(message: string)
    | Other

  /** What the session knows of a socket it created: its address and whether close() was called. */
  datatype Connection = Connection(url: string, closeRequested: bool)

  /** The state slots of the lobby screen (the animation value aside). */
  datatype State = State(
    lobbyCode: string,
    joinCode: string,
    playerName: string,
    players: seq<string>,
    socket: Option<Connection>,
    isConnected: bool,
    errorMessage: string)

  /** The initial values of the slots. */
  const Initial := State("", "", "", [], None, false, "")

  datatype Event =
    | CodeTyped(text: string)
    | NameTyped(text: string)
    | JoinPressed(baseUrl: string)
    | HostPressed(baseUrl: string)
    | LeavePressed
    | SocketOpen
    | SocketError
    | SocketClose
    | Received(message: Message)

  /** Events that only a socket can deliver. */
  predicate IsTransportEvent(e: Event) {
    e.SocketOpen? || e.SocketError? || e.SocketClose? || e.Received?
  }

  /** An event can happen in a state: socket events need a socket. */
  predicate Enabled(s: State, e: Event) {
    IsTransportEvent(e) ==> s.socket.Some?
  }

  /** Opening a fresh socket for the given code; the old one, if any, is left alone. */
  function Connect(s: State, baseUrl: string, code: string): State {
    s.(socket := Some(Connection(ConnectionUrl(baseUrl, code, s.playerName), false)))
  }

  /**
   * The handler for each event. Each slot has its own writers: only edits write
   * the input slots, only the buttons write the socket slot, only a player list
   * or Leave writes the lobby code and roster, only the events that decide the
   * connection write that flag, and only a rejected button, a transport error or
   * a server error writes the error message.
   */
  function Step(s: State, e: Event): (r: State)
    ensures r.joinCode != s.joinCode ==> e.CodeTyped?
    ensures r.playerName != s.playerName ==> e.NameTyped?
    ensures r.socket != s.socket ==> e.JoinPressed? || e.HostPressed? || e.LeavePressed?
    ensures r.lobbyCode != s.lobbyCode || r.players != s.players ==> SetsRoster(e)
    ensures r.isConnected != s.isConnected ==> DecidesConnection(e)
    ensures r.errorMessage != s.errorMessage ==>
      e.JoinPressed? || e.HostPressed? || e.SocketError? || (e.Received? && e.message.Error?)
    ensures e.LeavePressed? && s.socket.Some? ==> r.socket.Some? && r.socket.value.closeRequested
  {
    match e
    case CodeTyped(text) => s.(joinCode := NormalizeJoinCode(text))
    case NameTyped(text) => s.(playerName := text)
    case JoinPressed(baseUrl) =>
      (match JoinRejection(s.joinCode, s.playerName)
       case Some(msg) => s.(errorMessage := msg)
       case None => Connect(s, baseUrl, s.joinCode))
    case HostPressed(baseUrl) =>
      (match HostRejection(s.playerName)
       case Some(msg) => s.(errorMessage := msg)
       case None => Connect(s, baseUrl, ""))
    case LeavePressed =>
      var socket := if s.socket.Some? then Some(s.socket.value.(closeRequested := true)) else None;
      s.(socket := socket, isConnected := false, lobbyCode := "", players := [])
    case SocketOpen => s.(isConnected := true)
    case SocketError => s.(errorMessage := TransportFailureMessage, isConnected := false)
    case SocketClose => s.(isConnected := false)
    case Received(m) =>
      (match m
       case PlayerList(code, players) => s.(lobbyCode := code, players := players)
       case Error(msg) => s.(errorMessage := msg, isConnected := false)
       case Other => s)
  }

  /** The events in order, one at a time. */
  function Run(s: State, t: seq<Event>): State
    decreases |t|
  {
    if t == [] then s else Run(Step(s, t[0]), t[1..])
  }

  predicate EnabledTrace(s: State, t: seq<Event>)
    decreases |t|
  {
    t == [] || (Enabled(s, t[0]) && EnabledTrace(Step(s, t[0]), t[1..]))
  }

  /**
   * The session invariant: the join-code slot only ever holds a cleaned-up code,
   * and the lobby view (isConnected) is only shown while a socket exists.
   */
  predicate Inv(s: State) {
    IsNormalJoinCode(s.joinCode) && (s.isConnected ==> s.socket.Some?)
  }

  lemma InitialInv()
    ensures Inv(Initial)
  {
  }

  lemma StepPreservesInv(s: State, e: Event)
    requires Inv(s) && Enabled(s, e)
    ensures Inv(Step(s, e))
  {
  }

  lemma {:induction false} RunPreservesInv(s: State, t: seq<Event>)
    requires Inv(s) && EnabledTrace(s, t)
    ensures Inv(Run(s, t))
    decreases |t|
  {
    if t != [] {
      StepPreservesInv(s, t[0]);
      RunPreservesInv(Step(s, t[0]), t[1..]);
    }
  }

  /** A successful join connects to the query that reads back as a join with the typed code. */
  lemma JoinConnectsWithCode(s: State, baseUrl: string)
    requires JoinRejection(s.joinCode, s.playerName) == None
    ensures var s' := Step(s, JoinPressed(baseUrl));
      s'.socket.Some? && !s'.socket.value.closeRequested &&
      baseUrl <= s'.socket.value.url &&
      ParseQuery(s'.socket.value.url[|baseUrl|..]) == Some(JoinIntent(s.joinCode, s.playerName)) &&
      s' == s.(socket := s'.socket)
  {
  }

  /** A successful host connects to the query that reads back as a host with the typed name. */
  lemma HostConnectsWithoutCode(s: State, baseUrl: string)
    requires HostRejection(s.playerName) == None
    ensures var s' := Step(s, HostPressed(baseUrl));
      s'.socket.Some? && !s'.socket.value.closeRequested &&
      baseUrl <= s'.socket.value.url &&
      ParseQuery(s'.socket.value.url[|baseUrl|..]) == Some(HostIntent(s.playerName)) &&
      s' == s.(socket := s'.socket)
  {
  }

  /** A rejected join or host reports its message and opens no socket. */
  lemma RejectionOpensNothing(s: State, baseUrl: string)
    ensures JoinRejection(s.joinCode, s.playerName).Some? ==>
      Step(s, JoinPressed(baseUrl)) == s.(errorMessage := JoinRejection(s.joinCode, s.playerName).value)
    ensures HostRejection(s.playerName).Some? ==>
      Step(s, HostPressed(baseUrl)) == s.(errorMessage := MissingNameMessage)
  {
  }

  lemma {:induction false} RunAppend(s: State, a: seq<Event>, b: seq<Event>)
    ensures Run(s, a + b) == Run(Run(s, a), b)
    decreases |a|
  {
    if a != [] {
      assert a + b != [] && (a + b)[0] == a[0] && (a + b)[1..] == a[1..] + b;
      RunAppend(Step(s, a[0]), a[1..], b);
    } else {
      assert a + b == b;
    }
  }

  /** A message of an unknown type may be dropped from any run without changing its outcome. */
  lemma OtherMessageAbsorbed(s: State, a: seq<Event>, b: seq<Event>)
    ensures Run(s, a + [Received(Other)] + b) == Run(s, a + b)
  {
    RunAppend(s, a + [Received(Other)], b);
    RunAppend(s, a, [Received(Other)]);
    RunAppend(s, a, b);
  }

  /** The last event of `t` that satisfies `p`. */
  function LastWhere(t: seq<Event>, p: Event -> bool): (r: Option<Event>)
    ensures r.Some? ==> r.value in t && p(r.value)
    decreases |t|
  {
    if t == [] then None
    else
      var later := LastWhere(t[1..], p);
      if later.Some? then later else if p(t[0]) then Some(t[0]) else None
  }

  /** Events that decide isConnected. */
  predicate DecidesConnection(e: Event) {
    e.SocketOpen? || e.SocketError? || e.SocketClose? || e.LeavePressed? ||
    (e.Received? && e.message.Error?)
  }

  /**
   * After any run the session is connected exactly when the last event that
   * touched the connection flag was the socket opening (or, if none did, when it
   * was connected before).
   */
  lemma {:induction false} ConnectedFollowsLastOpen(s: State, t: seq<Event>)
    ensures Run(s, t).isConnected ==
      match LastWhere(t, DecidesConnection)
      case None => s.isConnected
      case Some(e) => e.SocketOpen?
    decreases |t|
  {
    if t != [] {
      ConnectedFollowsLastOpen(Step(s, t[0]), t[1..]);
    }
  }

  /** Events that decide the lobby code and the roster. */
  predicate SetsRoster(e: Event) {
    e.LeavePressed? || (e.Received? && e.message.PlayerList?)
  }

  /**
   * After any run the lobby code and the player list are those of the last
   * playerList message, or empty if the user left after it.
   */
  lemma {:induction false} RosterFollowsLastPlayerList(s: State, t: seq<Event>)
    ensures var r := Run(s, t);
      match LastWhere(t, SetsRoster)
      case None => r.lobbyCode == s.lobbyCode && r.players == s.players
      case Some(e) =>
        if e.LeavePressed? then r.lobbyCode == "" && r.players == []
        else r.lobbyCode == e.message.partyCode && r.players == e.message.players
    decreases |t|
  {
    if t != [] {
      RosterFollowsLastPlayerList(Step(s, t[0]), t[1..]);
    }
  }

  /**
   * After any run the join-code slot holds the clean-up of the last text typed
   * into the code field, and the name slot the last text typed into the name
   * field; nothing else writes them.
   */
  lemma {:induction false} InputsFollowLastEdit(s: State, t: seq<Event>)
    ensures var r := Run(s, t);
      (match LastWhere(t, (e: Event) => e.CodeTyped?)
       case None => r.joinCode == s.joinCode
       case Some(e) => r.joinCode == NormalizeJoinCode(e.text)) &&
      (match LastWhere(t, (e: Event) => e.NameTyped?)
       case None => r.playerName == s.playerName
       case Some(e) => r.playerName == e.text)
    decreases |t|
  {
    if t != [] {
      InputsFollowLastEdit(Step(s, t[0]), t[1..]);
    }
  }
}
