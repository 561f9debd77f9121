/**
 * The records of the chat package: the message that flows through the
 * pipeline, the channel and the user, and the sixteen message-type constants.
 * Times are integers (nanoseconds since the Unix epoch); ids are opaque strings.
 */
module ChatModel {
  import opened Common

  /** One chat message: sender, channel, text, type and arrival time. */
  datatype Message = Message(
    username: string,
    channelName: string,
    message: string,
    messageType: uint8,
    time: int)

  datatype Channel = Channel(id: string, name: string, createdAt: int)

  /**
   * An authorised user. The Go code passes `*User` around and overwrites the
   * credential fields in place, so every holder of the pointer sees the change.
   */
  class User {
    var id: string
    var username: string
    var accessToken: string
    var refreshToken: string
    var expiresAt: int
    var createdAt: int

    constructor (id: string, username: string, accessToken: string, refreshToken: string, expiresAt: int, createdAt: int)
      ensures this.id == id && this.username == username
      ensures this.accessToken == accessToken && this.refreshToken == refreshToken
      ensures this.expiresAt == expiresAt && this.createdAt == createdAt
    {
      this.id := id;
      this.username := username;
      this.accessToken := accessToken;
      this.refreshToken := refreshToken;
      this.expiresAt := expiresAt;
      this.createdAt := createdAt;
    }
  }

  // The `iota` block: each constant is its position in the declaration list.
  const Unset: uint8 := 0
  const Whisper: uint8 := 1
  const PrivMsg: uint8 := 2
  const ClearChat: uint8 := 3
  const RoomState: uint8 := 4
  const UserNotice: uint8 := 5
  const UserState: uint8 := 6
  const Notice: uint8 := 7
  const Join: uint8 := 8
  const Part: uint8 := 9
  const Reconnect: uint8 := 10
  const Names: uint8 := 11
  const Ping: uint8 := 12
  const Pong: uint8 := 13
  const ClearMsg: uint8 := 14
  const GlobalUserState: uint8 := 15

  /** The sixteen message-type constants in declaration order. */
  function MessageTypes(): (ts: seq<uint8>)
    ensures |ts| == 16
    ensures forall i :: 0 <= i < |ts| ==> ts[i] == i
  {
    [Unset, Whisper, PrivMsg, ClearChat, RoomState, UserNotice, UserState, Notice,
     Join, Part, Reconnect, Names, Ping, Pong, ClearMsg, GlobalUserState]
  }

  /** No two constants share a value, and Unset is the zero value. */
  lemma MessageTypesDistinct()
    ensures forall i, j :: 0 <= i < j < |MessageTypes()| ==> MessageTypes()[i] != MessageTypes()[j]
    ensures MessageTypes()[0] == Unset == 0
  {
  }
}
