/**
 * Input rules of the lobby screen: the join-code check and the empty-name check
 * done by the Join and Host buttons, and the clean-up applied to every edit of
 * the join-code field.
 */
module LobbyInput {
  import opened Options

  /** Shown when the join code is not four upper-case letters. */
  const InvalidCodeMessage := "Please enter a valid 4-letter code"
  /** Shown when the player name is empty. */
  const MissingNameMessage := "Please enter your name"
  /** The number of letters a join code has, and the most the code field keeps. */
  const CodeLength := 4

  predicate IsUpperLetter(c: char) {
    'A' <= c <= 'Z'
  }

  /** The character class [A-Za-z]. */
  predicate IsLetter(c: char) {
    'A' <= c <= 'Z' || 'a' <= c <= 'z'
  }

  predicate AllUpperLetters(s: string) {
    forall i :: 0 <= i < |s| ==> IsUpperLetter(s[i])
  }

  predicate AllLetters(s: string) {
    forall i :: 0 <= i < |s| ==> IsLetter(s[i])
  }

  /**
   * The test /^[A-Z]+$/, read one character at a time. It accepts exactly the
   * non-empty strings of upper-case letters.
   */
  function MatchesUpperLetters(s: string): (matched: bool)
    ensures matched <==> |s| > 0 && AllUpperLetters(s)
    decreases |s|
  {
    assert forall i :: 0 < i < |s| ==> s[1..][i - 1] == s[i];
    |s| > 0 && IsUpperLetter(s[0]) && (|s| == 1 || MatchesUpperLetters(s[1..]))
  }

  /**
   * The join-code check: `joinCode.length !== 4 || !/^[A-Z]+$/.test(joinCode)`
   * rejects, so the code passes when it is four characters long and matches.
   */
  function IsValidJoinCode(code: string): (ok: bool)
    ensures ok <==> |code| == CodeLength && AllUpperLetters(code)
  {
    !(|code| != CodeLength || !MatchesUpperLetters(code))
  }

  /**
   * `!playerName`: the only falsy string is the empty one. No trimming is done,
   * so a name made of spaces is not missing.
   */
  function NameMissing(name: string): (missing: bool)
    ensures missing <==> |name| == 0
  {
    name == ""
  }

  /**
   * The checks of the Join button, in their order: the message it reports, or
   * None when it goes on to connect.
   */
  function JoinRejection(code: string, name: string): (r: Option<string>)
    ensures r == None <==> |code| == CodeLength && AllUpperLetters(code) && name != ""
    ensures !IsValidJoinCode(code) ==> r == Some(InvalidCodeMessage)
    ensures IsValidJoinCode(code) && name == "" ==> r == Some(MissingNameMessage)
  {
    if !IsValidJoinCode(code) then Some(InvalidCodeMessage)
    else if NameMissing(name) then Some(MissingNameMessage)
    else None
  }

  /** The check of the Host button: only the name is looked at. */
  function HostRejection(name: string): (r: Option<string>)
    ensures r == None <==> name != ""
    ensures r != None ==> r == Some(MissingNameMessage)
  {
    if NameMissing(name) then Some(MissingNameMessage) else None
  }

  /** `text.replace(/[^A-Za-z]/g, '')`: the letters of `text`, in order. */
  function StripNonLetters(text: string): (r: string)
    ensures |r| <= |text|
    ensures AllLetters(r)
    decreases |text|
  {
    if text == [] then []
    else (if IsLetter(text[0]) then [text[0]] else []) + StripNonLetters(text[1..])
  }

  /** Stripping one character keeps it exactly when it is a letter. */
  lemma StripOne(c: char)
    ensures StripNonLetters([c]) == if IsLetter(c) then [c] else []
  {
    assert [c][1..] == [];
  }

  /** Stripping works piece by piece, so the letters survive in their order. */
  lemma {:induction false} StripAppend(a: string, b: string)
    ensures StripNonLetters(a + b) == StripNonLetters(a) + StripNonLetters(b)
    decreases |a|
  {
    if a == [] {
      assert a + b == b;
    } else {
      assert (a + b)[0] == a[0] && (a + b)[1..] == a[1..] + b;
      StripAppend(a[1..], b);
    }
  }

  /** Upper-casing of one ASCII character; every other character is left as it is. */
  function UpperCaseChar(c: char): (d: char)
    ensures 'a' <= c <= 'z' ==> IsUpperLetter(d) && d as int == c as int - 32
    ensures !('a' <= c <= 'z') ==> d == c
  {
    if 'a' <= c <= 'z' then (c as int - 32) as char else c
  }

  /** `toUpperCase()` on a string of ASCII letters, character by character. */
  function UpperCase(s: string): (r: string)
    ensures |r| == |s|
    ensures forall i :: 0 <= i < |s| ==> r[i] == UpperCaseChar(s[i])
    decreases |s|
  {
    if s == [] then [] else [UpperCaseChar(s[0])] + UpperCase(s[1..])
  }

  /** The strings the join-code field can hold: at most four upper-case letters. */
  predicate IsNormalJoinCode(s: string) {
    |s| <= CodeLength && AllUpperLetters(s)
  }

  /**
   * The edit handler of the join-code field: drop every non-letter, upper-case
   * the rest and keep `slice(0, 4)` of it. The result is at most four upper-case
   * letters, namely the first letters of the text, capitalised.
   */
  function NormalizeJoinCode(text: string): (r: string)
    ensures IsNormalJoinCode(r)
    ensures |r| == if |StripNonLetters(text)| < CodeLength then |StripNonLetters(text)| else CodeLength
    ensures forall i :: 0 <= i < |r| ==> r[i] == UpperCaseChar(StripNonLetters(text)[i])
  {
    var upper := UpperCase(StripNonLetters(text));
    var r := if |upper| < CodeLength then upper else upper[..CodeLength];
    assert forall i :: 0 <= i < |r| ==> IsLetter(StripNonLetters(text)[i]);
    r
  }

  lemma {:induction false} StripKeepsLetters(s: string)
    requires AllLetters(s)
    ensures StripNonLetters(s) == s
    decreases |s|
  {
    if s != [] {
      assert forall i :: 0 <= i < |s| - 1 ==> s[1..][i] == s[i + 1];
      StripKeepsLetters(s[1..]);
    }
  }

  /** The normal join codes are exactly the texts the clean-up leaves as they are. */
  lemma NormalizeFixpoints(s: string)
    ensures NormalizeJoinCode(s) == s <==> IsNormalJoinCode(s)
  {
    if IsNormalJoinCode(s) {
      assert AllLetters(s);
      StripKeepsLetters(s);
      assert UpperCase(s) == s;
    }
  }

  /** Cleaning up an already cleaned-up code changes nothing. */
  lemma NormalizeIdempotent(text: string)
    ensures NormalizeJoinCode(NormalizeJoinCode(text)) == NormalizeJoinCode(text)
  {
    NormalizeFixpoints(NormalizeJoinCode(text));
  }

  /** A cleaned-up code passes the join-code check exactly when it has four letters. */
  lemma NormalizedCodeValidIff(text: string)
    ensures IsValidJoinCode(NormalizeJoinCode(text)) <==> |NormalizeJoinCode(text)| == CodeLength
  {
  }
}
