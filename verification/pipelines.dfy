/**
 * The two stages of the message pipeline: the filter that keeps trigger
 * messages of an allowed type, and the serve loop that drops messages from
 * unknown senders or foreign channels and prints the rest.
 *
 * Each stage is a goroutine running `for { select { ... } }`. A run of such a
 * loop is modelled by the finite sequence of outcomes its `select` produced:
 * the context was done, a message was received, or the input was closed.
 */
module Pipelines {
  import opened Common
  import opened ChatModel

  /** The literal that marks a message as a command for the bot. */
  const TriggerPrefix := "!!!"

  /** One outcome of the `select` at the head of a loop iteration. */
  datatype Step = CtxDone | Received(message: Message) | StreamClosed

  /** How the filter goroutine's loop ended (it then closes its output). */
  datatype FilterEnd = FilterCancelled | FilterInputClosed | FilterWaiting

  /**
   * How the serve goroutine's loop ended. It has no closed-channel check: a
   * receive from a closed stream yields a nil message, whose dereference panics.
   */
  datatype ServeEnd = ServeCancelled | NilMessagePanic | ServeWaiting

  predicate HasPrefix(s: string, prefix: string) {
    |prefix| <= |s| && s[..|prefix|] == prefix
  }

  /** The condition under which the filter forwards a message. */
  predicate Forwarded(m: Message, allowedTypes: seq<uint8>) {
    m.messageType in allowedTypes && HasPrefix(m.message, TriggerPrefix)
  }

  /** The messages of `ms` that the filter forwards, in their input order. */
  function Filtered(ms: seq<Message>, allowedTypes: seq<uint8>): (r: seq<Message>)
    ensures |r| <= |ms|
    ensures forall m :: m in r ==> m in ms && Forwarded(m, allowedTypes)
  {
    if ms == [] then []
    else
      var last := ms[|ms| - 1];
      Filtered(ms[..|ms| - 1], allowedTypes) + (if Forwarded(last, allowedTypes) then [last] else [])
  }

  /** The messages a loop receives before its first stop (context done or input closed). */
  function Delivered(steps: seq<Step>): (ms: seq<Message>)
    ensures |ms| <= |steps|
  {
    if steps == [] then []
    else match steps[0]
      case Received(m) => [m] + Delivered(steps[1..])
      case _ => []
  }

  /** How a loop over `steps` ends: at the first stop, or still waiting for input. */
  function FilterEndOf(steps: seq<Step>): FilterEnd {
    if steps == [] then FilterWaiting
    else match steps[0]
      case CtxDone => FilterCancelled
      case StreamClosed => FilterInputClosed
      case Received(_) => FilterEndOf(steps[1..])
  }

  /** The serve loop ends where the filter loop would; a closed input panics. */
  function ServeEndOf(steps: seq<Step>): ServeEnd {
    match FilterEndOf(steps)
    case FilterCancelled => ServeCancelled
    case FilterInputClosed => NilMessagePanic
    case FilterWaiting => ServeWaiting
  }

  /** A stream that delivers `ms` in order and is then closed by its producer. */
  function ClosedStream(ms: seq<Message>): (steps: seq<Step>)
    ensures |steps| == |ms| + 1 && steps[|ms|] == StreamClosed
    ensures forall i :: 0 <= i < |ms| ==> steps[i] == Received(ms[i])
  {
    seq(|ms|, i requires 0 <= i < |ms| => Received(ms[i])) + [StreamClosed]
  }

  /** What the loop does with the step at position `i`: a receive continues with the rest, a stop ends it. */
  lemma StepAt(steps: seq<Step>, i: nat)
    requires i < |steps|
    ensures steps[i].Received? ==>
      Delivered(steps[i..]) == [steps[i].message] + Delivered(steps[i + 1..])
      && FilterEndOf(steps[i..]) == FilterEndOf(steps[i + 1..])
    ensures steps[i].CtxDone? ==> Delivered(steps[i..]) == [] && FilterEndOf(steps[i..]) == FilterCancelled
    ensures steps[i].StreamClosed? ==> Delivered(steps[i..]) == [] && FilterEndOf(steps[i..]) == FilterInputClosed
  {
    assert steps[i..][0] == steps[i];
    assert steps[i..][1..] == steps[i + 1..];
  }

  /** Moving the next delivered message into the received prefix. */
  lemma ReceiveNext(received: seq<Message>, m: Message, rest: seq<Message>)
    ensures received + ([m] + rest) == (received + [m]) + rest
  {
  }

  /** Filtering one more message appends it exactly when it qualifies. */
  lemma FilteredSnoc(ms: seq<Message>, m: Message, allowedTypes: seq<uint8>)
    ensures Filtered(ms + [m], allowedTypes) == Filtered(ms, allowedTypes) + (if Forwarded(m, allowedTypes) then [m] else [])
  {
    assert (ms + [m])[..|ms|] == ms;
  }

  /**
   * The filter goroutine: pulls one step at a time and forwards, in order,
   * each received message of an allowed type that starts with the prefix;
   * returns when the context is done or the input is closed.
   */
  method FilterMessageStream(steps: seq<Step>, allowedTypes: seq<uint8>)
    returns (out: seq<Message>, end: FilterEnd)
    ensures out == Filtered(Delivered(steps), allowedTypes)
    ensures end == FilterEndOf(steps)
  {
    out := [];
    ghost var received: seq<Message> := [];
    var i := 0;
    while i < |steps|
      invariant 0 <= i <= |steps|
      invariant out == Filtered(received, allowedTypes)
      invariant Delivered(steps) == received + Delivered(steps[i..])
      invariant FilterEndOf(steps) == FilterEndOf(steps[i..])
    {
      StepAt(steps, i);
      match steps[i]
      case CtxDone =>
        assert received + [] == received;
        end := FilterCancelled;
        return;
      case StreamClosed =>
        assert received + [] == received;
        end := FilterInputClosed;
        return;
      case Received(message) =>
        FilteredSnoc(received, message, allowedTypes);
        ReceiveNext(received, message, Delivered(steps[i + 1..]));
        if Forwarded(message, allowedTypes) {
          out := out + [message];
        }
        received := received + [message];
        i := i + 1;
    }
    assert steps[i..] == [];
    assert received + [] == received;
    end := FilterWaiting;
  }

  /** The users that `findUser` returns for the senders of `ms`. */
  function SendersOf(ms: seq<Message>, findUser: string -> User?): set<User?> {
    set m | m in ms && findUser(m.username) != null :: findUser(m.username)
  }

  /** The condition under which the serve loop prints a message. */
  predicate Accepted(m: Message, findUser: string -> User?, isUserChannel: (string, string) -> bool)
    reads SendersOf([m], findUser)
  {
    var user := findUser(m.username);
    user != null && isUserChannel(user.username, m.channelName)
  }

  /** The lines the serve loop prints for `ms`: the text of each accepted message, in order. */
  function Printed(ms: seq<Message>, findUser: string -> User?, isUserChannel: (string, string) -> bool): (r: seq<string>)
    reads SendersOf(ms, findUser)
    ensures |r| <= |ms|
  {
    if ms == [] then []
    else
      var last := ms[|ms| - 1];
      assert last in ms;
      assert forall m :: m in ms[..|ms| - 1] ==> m in ms;
      Printed(ms[..|ms| - 1], findUser, isUserChannel)
        + (if Accepted(last, findUser, isUserChannel) then [last.message] else [])
  }

  /**
   * The serve goroutine: for each received message, looks the sender up and
   * skips it when the sender is unknown or the channel is not the sender's;
   * otherwise prints the message text as received.
   */
  method ServeMessageStream(steps: seq<Step>, findUser: string -> User?, isUserChannel: (string, string) -> bool)
    returns (printed: seq<string>, end: ServeEnd)
    ensures printed == Printed(Delivered(steps), findUser, isUserChannel)
    ensures end == ServeEndOf(steps)
  {
    printed := [];
    ghost var received: seq<Message> := [];
    var i := 0;
    while i < |steps|
      invariant 0 <= i <= |steps|
      invariant printed == Printed(received, findUser, isUserChannel)
      invariant Delivered(steps) == received + Delivered(steps[i..])
      invariant FilterEndOf(steps) == FilterEndOf(steps[i..])
    {
      StepAt(steps, i);
      match steps[i]
      case CtxDone =>
        assert received + [] == received;
        end := ServeCancelled;
        return;
      case StreamClosed =>
        assert received + [] == received;
        end := NilMessagePanic;
        return;
      case Received(message) =>
        PrintedSnoc(received, message, findUser, isUserChannel);
        ReceiveNext(received, message, Delivered(steps[i + 1..]));
        if Accepted(message, findUser, isUserChannel) {
          printed := printed + [message.message];
        }
        received := received + [message];
        i := i + 1;
    }
    assert steps[i..] == [];
    assert received + [] == received;
    end := ServeWaiting;
  }

  /** Serving one more message adds its text exactly when it is accepted. */
  lemma PrintedSnoc(ms: seq<Message>, m: Message, findUser: string -> User?, isUserChannel: (string, string) -> bool)
    ensures Printed(ms + [m], findUser, isUserChannel)
      == Printed(ms, findUser, isUserChannel) + (if Accepted(m, findUser, isUserChannel) then [m.message] else [])
  {
    assert (ms + [m])[..|ms|] == ms;
  }

  // ----- Properties of the filter -----

  /** Filtering distributes over concatenation: the output keeps the input order. */
  lemma {:induction false} FilteredConcat(a: seq<Message>, b: seq<Message>, allowedTypes: seq<uint8>)
    ensures Filtered(a + b, allowedTypes) == Filtered(a, allowedTypes) + Filtered(b, allowedTypes)
  {
    if b == [] {
      assert a + b == a;
    } else {
      var b' := b[..|b| - 1];
      assert (a + b)[..|a + b| - 1] == a + b';
      FilteredConcat(a, b', allowedTypes);
    }
  }

  /**
   * The output is exactly the qualifying input messages: each message occurs
   * in the output as often as in the input if it qualifies, and never otherwise.
   */
  lemma {:induction false} FilteredCount(ms: seq<Message>, allowedTypes: seq<uint8>, m: Message)
    ensures multiset(Filtered(ms, allowedTypes))[m] == if Forwarded(m, allowedTypes) then multiset(ms)[m] else 0
  {
    if ms != [] {
      var init := ms[..|ms| - 1];
      FilteredCount(init, allowedTypes, m);
      assert ms == init + [ms[|ms| - 1]];
    }
  }

  /** Filtering an already filtered sequence changes nothing. */
  lemma {:induction false} FilteredIdempotent(ms: seq<Message>, allowedTypes: seq<uint8>)
    ensures Filtered(Filtered(ms, allowedTypes), allowedTypes) == Filtered(ms, allowedTypes)
  {
    if ms != [] {
      var init := ms[..|ms| - 1];
      var last := ms[|ms| - 1];
      FilteredIdempotent(init, allowedTypes);
      var tail := if Forwarded(last, allowedTypes) then [last] else [];
      FilteredConcat(Filtered(init, allowedTypes), tail, allowedTypes);
      if Forwarded(last, allowedTypes) {
        assert Filtered(tail, allowedTypes) == Filtered([], allowedTypes) + [last];
      }
    }
  }

  /** Steps after the first stop never reach the output. */
  lemma {:induction false} NothingAfterStop(before: seq<Step>, stop: Step, after: seq<Step>)
    requires stop.CtxDone? || stop.StreamClosed?
    ensures Delivered(before + [stop] + after) == Delivered(before + [stop])
    ensures FilterEndOf(before + [stop] + after) == FilterEndOf(before + [stop])
  {
    if before == [] {
      assert ([stop] + after)[0] == stop;
      assert [stop][0] == stop;
    } else {
      assert (before + [stop] + after)[1..] == before[1..] + [stop] + after;
      assert (before + [stop])[1..] == before[1..] + [stop];
      NothingAfterStop(before[1..], stop, after);
    }
  }

  /** A stream that is closed after `ms` delivers exactly `ms`, and the filter then sees the close. */
  lemma {:induction false} ClosedStreamDelivers(ms: seq<Message>)
    ensures Delivered(ClosedStream(ms)) == ms
    ensures FilterEndOf(ClosedStream(ms)) == FilterInputClosed
  {
    if ms != [] {
      assert ClosedStream(ms)[1..] == ClosedStream(ms[1..]);
      ClosedStreamDelivers(ms[1..]);
    }
  }

  // ----- Properties of the serve loop -----

  /** Serving distributes over concatenation: one line per accepted message, in input order. */
  lemma {:induction false} PrintedConcat(a: seq<Message>, b: seq<Message>, findUser: string -> User?, isUserChannel: (string, string) -> bool)
    ensures Printed(a + b, findUser, isUserChannel) == Printed(a, findUser, isUserChannel) + Printed(b, findUser, isUserChannel)
  {
    if b == [] {
      assert a + b == a;
    } else {
      var b' := b[..|b| - 1];
      assert (a + b)[..|a + b| - 1] == a + b';
      PrintedConcat(a, b', findUser, isUserChannel);
    }
  }

  /** Every printed line is, unchanged, the text of an accepted input message. */
  lemma {:induction false} PrintedComesFromAccepted(ms: seq<Message>, findUser: string -> User?, isUserChannel: (string, string) -> bool, k: nat)
    requires k < |Printed(ms, findUser, isUserChannel)|
    ensures exists m :: m in ms && Accepted(m, findUser, isUserChannel) && m.message == Printed(ms, findUser, isUserChannel)[k]
  {
    var init := ms[..|ms| - 1];
    var last := ms[|ms| - 1];
    if k < |Printed(init, findUser, isUserChannel)| {
      PrintedComesFromAccepted(init, findUser, isUserChannel, k);
      var m :| m in init && Accepted(m, findUser, isUserChannel) && m.message == Printed(init, findUser, isUserChannel)[k];
      assert m in ms;
    } else {
      assert last in ms;
    }
  }

  /** A message whose sender is unknown, or not the owner of its channel, prints nothing. */
  lemma RejectedPrintsNothing(ms: seq<Message>, m: Message, findUser: string -> User?, isUserChannel: (string, string) -> bool)
    requires findUser(m.username) == null || !isUserChannel(findUser(m.username).username, m.channelName)
    ensures Printed(ms + [m], findUser, isUserChannel) == Printed(ms, findUser, isUserChannel)
  {
    assert (ms + [m])[..|ms|] == ms;
  }

  /**
   * Composed with the filter, every printed line still starts with the
   * trigger prefix: the serve loop prints the text without stripping it.
   */
  lemma {:induction false} ServedLinesKeepPrefix(ms: seq<Message>, allowedTypes: seq<uint8>, findUser: string -> User?, isUserChannel: (string, string) -> bool)
    ensures forall line :: line in Printed(Filtered(ms, allowedTypes), findUser, isUserChannel) ==> HasPrefix(line, TriggerPrefix)
  {
    var fs := Filtered(ms, allowedTypes);
    forall line | line in Printed(fs, findUser, isUserChannel)
      ensures HasPrefix(line, TriggerPrefix)
    {
      var k :| 0 <= k < |Printed(fs, findUser, isUserChannel)| && Printed(fs, findUser, isUserChannel)[k] == line;
      PrintedComesFromAccepted(fs, findUser, isUserChannel, k);
    }
  }
}
