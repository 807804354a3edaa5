/**
 * The connection address built when the Join or Host button goes through: the
 * base URL of the game server followed by a query string that carries the
 * intent, a party code for a join and only the player name for a host.
 */
module LobbyQuery {
  import opened Options

  const PartyCodeField := "?partyCode="
  const JoinNameField := "&playerName="
  const HostNameField := "?playerName="

  /**
   * The query chosen by `code ? ... : ...`: a non-empty code selects the join
   * form, the empty code (the default, used by Host) the host form. Both values
   * are pasted in as they are, without URL encoding.
   */
  function ConnectionQuery(code: string, playerName: string): (q: string)
    ensures code != "" <==> PartyCodeField <= q
    ensures code == "" <==> HostNameField <= q
    ensures |playerName| <= |q| && q[|q| - |playerName|..] == playerName
  {
    var q := if code != "" then PartyCodeField + code + JoinNameField + playerName
             else HostNameField + playerName;
    // the two forms part at their third character, 'a' against 'l'
    assert q[2] == if code != "" then PartyCodeField[2] else HostNameField[2];
    q
  }

  /**
   * The address handed to the WebSocket constructor: the base URL, then a query
   * that, for any code without `&`, reads back as the intended join or host.
   */
  function ConnectionUrl(baseUrl: string, code: string, playerName: string): (url: string)
    ensures baseUrl <= url
    ensures '&' !in code ==> ParseQuery(url[|baseUrl|..]) == Some(IntentOf(code, playerName))
  {
    var url := baseUrl + ConnectionQuery(code, playerName);
    assert url[|baseUrl|..] == ConnectionQuery(code, playerName);
    if '&' !in code then QueryRoundTrip(code, playerName); url else url
  }

  /** What a query asks the server for. */
  datatype Intent = HostIntent(playerName: string) | JoinIntent(partyCode: string, playerName: string)

  /** The position of the first `c` in `s`, or |s| when there is none. */
  function IndexOf(s: string, c: char): (i: nat)
    ensures i <= |s|
    ensures i < |s| ==> s[i] == c
    ensures forall j :: 0 <= j < i ==> s[j] != c
    decreases |s|
  {
    if s == [] then 0 else if s[0] == c then 0 else 1 + IndexOf(s[1..], c)
  }

  /**
   * A reference reading of a query, as a server splitting at the first `&`
   * would do: the join form gives the code before the `&` and the name after
   * `&playerName=`; the host form gives the name.
   */
  function ParseQuery(q: string): Option<Intent> {
    if PartyCodeField <= q then
      var rest := q[|PartyCodeField|..];
      var i := IndexOf(rest, '&');
      if JoinNameField <= rest[i..] then Some(JoinIntent(rest[..i], rest[i + |JoinNameField|..]))
      else None
    else if HostNameField <= q then Some(HostIntent(q[|HostNameField|..]))
    else None
  }

  /** The intent that `connectToServer(code)` means to send. */
  function IntentOf(code: string, playerName: string): Intent {
    if code != "" then JoinIntent(code, playerName) else HostIntent(playerName)
  }

  /**
   * For any code without `&` (every code that passes the join-code check), the
   * query reads back as the intended join, or as a host when the code is empty.
   */
  lemma QueryRoundTrip(code: string, playerName: string)
    requires '&' !in code
    ensures ParseQuery(ConnectionQuery(code, playerName)) == Some(IntentOf(code, playerName))
  {
    var q := ConnectionQuery(code, playerName);
    if code != "" {
      assert PartyCodeField <= q;
      var rest := q[|PartyCodeField|..];
      assert rest == code + JoinNameField + playerName;
      assert rest[|code|] == '&';
      var i := IndexOf(rest, '&');
      assert forall j :: 0 <= j < |code| ==> rest[j] == code[j];
      assert i == |code|;
      assert rest[i..] == JoinNameField + playerName;
      assert rest[..i] == code;
    } else {
      assert q[2] == 'l';
      assert !(PartyCodeField <= q);
      assert HostNameField <= q;
    }
  }

  /** Distinct intents give distinct queries: the query determines code and name. */
  lemma QueryInjective(code1: string, name1: string, code2: string, name2: string)
    requires '&' !in code1 && '&' !in code2
    requires ConnectionQuery(code1, name1) == ConnectionQuery(code2, name2)
    ensures code1 == code2 && name1 == name2
  {
    QueryRoundTrip(code1, name1);
    QueryRoundTrip(code2, name2);
  }
}
