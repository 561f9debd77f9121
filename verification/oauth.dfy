/**
 * The OAuth 2.0 authorisation-code flow's `state` parameter (section 10.12 of
 * RFC 6749): the add-user route generates a random state, hex-encodes it and
 * stores it as a session flash; the callback route accepts the flow only when
 * the submitted state equals the last stored challenge.
 *
 * The random bytes are a parameter; the session store, the redirect, the code
 * exchange and the user lookup after a passed check are not part of this model.
 */
module OAuth {
  import opened Common

  /** Why the callback's state check failed. */
  datatype StateError =
    | MissingStateChallenge
    | InvalidState(expected: string, got: string)

  /** The number of random bytes in a state. */
  const TokenLength := 255

  /** The characters `hex.EncodeToString` emits: decimal digits and lower-case `a` to `f`. */
  predicate IsHexDigit(c: char) {
    '0' <= c <= '9' || 'a' <= c <= 'f'
  }

  /** The lower-case hex digit for `n`. */
  function HexDigit(n: int): (c: char)
    requires 0 <= n < 16
    ensures IsHexDigit(c)
  {
    if n < 10 then ('0' as int + n) as char else ('a' as int + n - 10) as char
  }

  /** The value of a lower-case hex digit, or None for any other character. */
  function HexValue(c: char): (r: Option<int>)
    ensures r.Some? <==> IsHexDigit(c)
    ensures r.Some? ==> 0 <= r.value < 16 && HexDigit(r.value) == c
  {
    if '0' <= c <= '9' then Some(c as int - '0' as int)
    else if 'a' <= c <= 'f' then Some(c as int - 'a' as int + 10)
    else None
  }

  /** Go's `hex.EncodeToString`: two lower-case digits per byte, high nibble first. */
  function HexEncode(bs: seq<uint8>): (s: string)
    ensures |s| == 2 * |bs|
    ensures forall i :: 0 <= i < |s| ==> IsHexDigit(s[i])
  {
    if bs == [] then []
    else [HexDigit(bs[0] / 16), HexDigit(bs[0] % 16)] + HexEncode(bs[1..])
  }

  /** Go's `hex.DecodeString`: None for an odd length or a character that is not a hex digit. */
  function HexDecode(s: string): (r: Option<seq<uint8>>)
    ensures r.Some? ==> 2 * |r.value| == |s|
    ensures |s| % 2 == 1 ==> r.None?
  {
    if s == [] then Some([])
    else if |s| == 1 then None
    else
      var hi, lo, rest := HexValue(s[0]), HexValue(s[1]), HexDecode(s[2..]);
      if hi.Some? && lo.Some? && rest.Some? then Some([(hi.value * 16 + lo.value) as uint8] + rest.value)
      else None
  }

  /** A byte's two digits read back as its high and low nibble, which recombine to the byte. */
  lemma DigitsOfByte(b: uint8)
    ensures HexValue(HexDigit(b / 16)) == Some(b / 16)
    ensures HexValue(HexDigit(b % 16)) == Some(b % 16)
    ensures (b / 16) * 16 + b % 16 == b
  {
    var hi, lo := HexDigit(b / 16), HexDigit(b % 16);
    assert HexValue(hi).Some? && HexValue(lo).Some?;
    assert HexDigit(HexValue(hi).value) == HexDigit(b / 16);
    assert HexDigit(HexValue(lo).value) == HexDigit(b % 16);
  }

  /** Decoding a byte's two digits in front of a decodable rest gives the byte in front of the rest's bytes. */
  lemma DecodeFront(b: uint8, rest: string)
    requires HexDecode(rest).Some?
    ensures HexDecode([HexDigit(b / 16), HexDigit(b % 16)] + rest) == Some([b] + HexDecode(rest).value)
  {
    var s := [HexDigit(b / 16), HexDigit(b % 16)] + rest;
    DigitsOfByte(b);
    assert s[0] == HexDigit(b / 16) && s[1] == HexDigit(b % 16) && s[2..] == rest;
    var hi, lo := HexValue(s[0]), HexValue(s[1]);
    assert hi == Some(b / 16) && lo == Some(b % 16);
    assert (hi.value * 16 + lo.value) as uint8 == b;
  }

  /** Decoding an encoding gives back the bytes. */
  lemma {:induction false} HexRoundTrip(bs: seq<uint8>)
    ensures HexDecode(HexEncode(bs)) == Some(bs)
  {
    if bs != [] {
      HexRoundTrip(bs[1..]);
      DecodeFront(bs[0], HexEncode(bs[1..]));
      assert [bs[0]] + bs[1..] == bs;
    }
  }

  /** Different byte strings give different states. */
  lemma HexEncodeInjective(a: seq<uint8>, b: seq<uint8>)
    requires HexEncode(a) == HexEncode(b)
    ensures a == b
  {
    HexRoundTrip(a);
    HexRoundTrip(b);
  }

  /** The state generated for the add-user redirect: the hex encoding of 255 random bytes. */
  function NewState(tokenBytes: seq<uint8>): (state: string)
    requires |tokenBytes| == TokenLength
    ensures |state| == 510
    ensures HexDecode(state) == Some(tokenBytes)
  {
    HexRoundTrip(tokenBytes);
    HexEncode(tokenBytes)
  }

  /**
   * The callback's check of the submitted `state` against the flashed
   * challenges, as written: the error message names the submitted state as
   * the expected one and the first challenge as the one received.
   */
  function CheckState(state: string, stateChallenge: seq<string>): (r: Option<StateError>)
    ensures r.None? <==> state != "" && |stateChallenge| >= 1 && state == stateChallenge[|stateChallenge| - 1]
    ensures state == "" || |stateChallenge| == 0 ==> r == Some(MissingStateChallenge)
    ensures r.Some? && r.value.InvalidState? ==> r.value.expected == state && r.value.got == stateChallenge[0]
  {
    if state == "" || |stateChallenge| < 1 then Some(MissingStateChallenge)
    else if state != stateChallenge[|stateChallenge| - 1] then Some(InvalidState(state, stateChallenge[0]))
    else None
  }

  /** Only the last challenge decides: challenges flashed earlier are ignored. */
  lemma EarlierChallengesIgnored(state: string, earlier: seq<string>, stateChallenge: seq<string>)
    requires |stateChallenge| >= 1
    ensures CheckState(state, earlier + stateChallenge).None? <==> CheckState(state, stateChallenge).None?
  {
    assert (earlier + stateChallenge)[|earlier + stateChallenge| - 1] == stateChallenge[|stateChallenge| - 1];
  }

  /** A state generated by the add-user route and flashed last passes the callback's check. */
  lemma {:induction false} GeneratedStatePasses(tokenBytes: seq<uint8>, earlier: seq<string>)
    requires |tokenBytes| == TokenLength
    ensures CheckState(NewState(tokenBytes), earlier + [NewState(tokenBytes)]) == None
  {
    var state := NewState(tokenBytes);
    assert state != "" by { assert |state| == 510; }
    assert (earlier + [state])[|earlier + [state]| - 1] == state;
  }

  /** The message as written can name, as "expected", a state that is not the challenge. */
  lemma InvalidStateMessageMisreports()
    ensures CheckState("c", ["a", "b"]) == Some(InvalidState("c", "a"))
    ensures CheckState("c", ["a", "b"]).value.expected != "b"
  {
  }

  /** The check as evidently intended: the message names the last challenge as expected and the submitted state as received. */
  function CheckStateIntended(state: string, stateChallenge: seq<string>): (r: Option<StateError>)
    ensures r.None? <==> CheckState(state, stateChallenge).None?
    ensures r.Some? && r.value.InvalidState? ==>
      |stateChallenge| >= 1 && r.value.expected == stateChallenge[|stateChallenge| - 1]
      && r.value.got == state && r.value.expected != r.value.got
  {
    if state == "" || |stateChallenge| < 1 then Some(MissingStateChallenge)
    else if state != stateChallenge[|stateChallenge| - 1] then Some(InvalidState(stateChallenge[|stateChallenge| - 1], state))
    else None
  }
}
