/**
 * The IRC side of ingestion: the mapping from the IRC library's message
 * types to the chat package's constants, and the conversion of a native
 * private message into a chat message.
 */
module Irc {
  import opened Common
  import opened ChatModel

  /**
   * The IRC library's message types. `Unlisted` stands for any other value of
   * the library's integer type, which the mapping sends to `Unset`.
   */
  datatype IrcMessageType =
    | UNSET | WHISPER | PRIVMSG | CLEARCHAT | ROOMSTATE | USERNOTICE | USERSTATE | NOTICE
    | JOIN | PART | RECONNECT | NAMES | PING | PONG | CLEARMSG | GLOBALUSERSTATE
    | Unlisted(code: int)

  /** The parts of the library's user record that the conversion reads. */
  datatype IrcUser = IrcUser(name: string)

  /** A native private-message event, reduced to the fields the conversion reads. */
  datatype PrivateMessage = PrivateMessage(user: IrcUser, channel: string, message: string, messageType: IrcMessageType, time: int)

  /** The types the switch names explicitly, other than UNSET. */
  predicate Listed(t: IrcMessageType) {
    !t.UNSET? && !t.Unlisted?
  }

  /** `mapToOurMessageType`: each listed type to its constant; UNSET and anything else to Unset. */
  function MapToOurMessageType(t: IrcMessageType): (r: uint8)
    ensures r < 16
    ensures r == Unset <==> !Listed(t)
  {
    match t
    case PRIVMSG => PrivMsg
    case CLEARCHAT => ClearChat
    case JOIN => Join
    case GLOBALUSERSTATE => GlobalUserState
    case NAMES => Names
    case PART => Part
    case PING => Ping
    case PONG => Pong
    case NOTICE => Notice
    case RECONNECT => Reconnect
    case ROOMSTATE => RoomState
    case USERNOTICE => UserNotice
    case WHISPER => Whisper
    case CLEARMSG => ClearMsg
    case USERSTATE => UserState
    case UNSET => Unset
    case Unlisted(_) => Unset
  }

  /** The library type each chat constant stands for: the reverse reading of the switch. */
  function IrcTypeOf(t: uint8): (r: IrcMessageType)
    ensures 1 <= t < 16 <==> Listed(r)
  {
    if t == Whisper then WHISPER
    else if t == PrivMsg then PRIVMSG
    else if t == ClearChat then CLEARCHAT
    else if t == RoomState then ROOMSTATE
    else if t == UserNotice then USERNOTICE
    else if t == UserState then USERSTATE
    else if t == Notice then NOTICE
    else if t == Join then JOIN
    else if t == Part then PART
    else if t == Reconnect then RECONNECT
    else if t == Names then NAMES
    else if t == Ping then PING
    else if t == Pong then PONG
    else if t == ClearMsg then CLEARMSG
    else if t == GlobalUserState then GLOBALUSERSTATE
    else if t == Unset then UNSET
    else Unlisted(t)
  }

  /** Mapping a listed type and reading it back gives the type again. */
  lemma MapRoundTrip(t: IrcMessageType)
    requires Listed(t)
    ensures IrcTypeOf(MapToOurMessageType(t)) == t
  {
  }

  /** Reading a constant back and mapping it gives the constant again. */
  lemma ReadBackRoundTrip(t: uint8)
    requires t < 16
    ensures MapToOurMessageType(IrcTypeOf(t)) == t
  {
  }

  /** The fifteen listed types map to pairwise distinct constants. */
  lemma MapDistinct(a: IrcMessageType, b: IrcMessageType)
    requires Listed(a) && Listed(b) && a != b
    ensures MapToOurMessageType(a) != MapToOurMessageType(b)
  {
    MapRoundTrip(a);
    MapRoundTrip(b);
  }

  /** The conversion of one native event: sender name, channel, text and time are copied, the type is mapped. */
  function ToChatMessage(m: PrivateMessage): (r: Message)
    ensures r.username == m.user.name && r.channelName == m.channel
    ensures r.message == m.message && r.time == m.time
    ensures r.messageType == MapToOurMessageType(m.messageType)
  {
    Message(m.user.name, m.channel, m.message, MapToOurMessageType(m.messageType), m.time)
  }

  /** The chat messages pushed for a sequence of native events: one per event, in order. */
  function MessageStream(events: seq<PrivateMessage>): (ms: seq<Message>)
    ensures |ms| == |events|
    ensures forall i :: 0 <= i < |events| ==> ms[i] == ToChatMessage(events[i])
  {
    seq(|events|, i requires 0 <= i < |events| => ToChatMessage(events[i]))
  }

  /** Only PRIVMSG events convert to messages of type PrivMsg. */
  lemma PrivMsgOnlyFromPrivmsg(m: PrivateMessage)
    ensures ToChatMessage(m).messageType == PrivMsg <==> m.messageType == PRIVMSG
  {
    if ToChatMessage(m).messageType == PrivMsg {
      MapRoundTrip(m.messageType);
    }
  }
}
