/**
 * The bot application: the in-memory whitelist of authorised users, kept as
 * two maps (by username and by id) that are updated in place, and the start
 * of the message pipeline, which seeds the whitelist, joins the stored
 * channels and starts filtering the IRC message stream.
 *
 * The repository's answers and the IRC events are parameters; the IRC
 * client's join and part calls are recorded as a log.
 */
module BotApp {
  import opened Common
  import opened ChatModel
  import Pipelines
  import Irc

  /** A call made on the IRC client. */
  datatype IrcCall = JoinCall(channels: seq<string>) | DepartCall(channel: string)

  /** An error reported by the repository. */
  datatype RepositoryError = RepositoryError(reason: string)

  /** Which of a user's fields keys a whitelist map. */
  datatype KeyKind = ByName | ById

  function Key(u: User, kind: KeyKind): string
    reads u
  {
    match kind
    case ByName => u.username
    case ById => u.id
  }

  /** The map after adding `users` one by one, each under its key; a later user replaces an earlier one with the same key. */
  function Seeded(m: map<string, User>, users: seq<User>, kind: KeyKind): map<string, User>
    reads set u | u in users
  {
    if users == [] then m
    else
      var last := users[|users| - 1];
      Seeded(m, users[..|users| - 1], kind)[Key(last, kind) := last]
  }

  /** One join call per channel, with that channel's name, in list order. */
  function JoinCalls(channels: seq<Channel>): (calls: seq<IrcCall>)
    ensures |calls| == |channels|
    ensures forall i :: 0 <= i < |channels| ==> calls[i] == JoinCall([channels[i].name])
  {
    seq(|channels|, i requires 0 <= i < |channels| => JoinCall([channels[i].name]))
  }

  class App {
    var whitelistById: map<string, User>
    var whitelist: map<string, User>
    var ircCalls: seq<IrcCall>

    /** Each whitelisted user is stored under its own username and its own id. */
    ghost predicate Valid()
      reads this, whitelist.Values, whitelistById.Values
    {
      && (forall name :: name in whitelist ==> whitelist[name].username == name)
      && (forall id :: id in whitelistById ==> whitelistById[id].id == id)
    }

    constructor ()
      ensures Valid()
      ensures whitelist == map[] && whitelistById == map[] && ircCalls == []
    {
      whitelistById := map[];
      whitelist := map[];
      ircCalls := [];
    }

    /** Asks the IRC client to join the given channels. */
    method JoinChannel(channels: seq<string>)
      modifies this
      ensures ircCalls == old(ircCalls) + [JoinCall(channels)]
      ensures whitelist == old(whitelist) && whitelistById == old(whitelistById)
    {
      ircCalls := ircCalls + [JoinCall(channels)];
    }

    /** Asks the IRC client to leave a channel. */
    method Depart(channel: string)
      modifies this
      ensures ircCalls == old(ircCalls) + [DepartCall(channel)]
      ensures whitelist == old(whitelist) && whitelistById == old(whitelistById)
    {
      ircCalls := ircCalls + [DepartCall(channel)];
    }

    /** Stores the user under its name and under its id, replacing any earlier entry for either key. */
    method AddUsername(u: User)
      requires Valid()
      modifies this
      ensures Valid()
      ensures whitelist == old(whitelist)[u.username := u]
      ensures whitelistById == old(whitelistById)[u.id := u]
      ensures ircCalls == old(ircCalls)
    {
      whitelist := whitelist[u.username := u];
      whitelistById := whitelistById[u.id := u];
    }

    /** Deletes the entries under the user's name and under its id; absent keys are ignored. */
    method RemoveUsername(u: User)
      requires Valid()
      modifies this
      ensures Valid()
      ensures whitelist == old(whitelist) - {u.username}
      ensures whitelistById == old(whitelistById) - {u.id}
      ensures ircCalls == old(ircCalls)
    {
      whitelist := whitelist - {u.username};
      whitelistById := whitelistById - {u.id};
    }

    /** The loop over the stored users: adds each in list order. */
    method AddAll(users: seq<User>)
      requires Valid()
      modifies this
      ensures Valid()
      ensures whitelist == Seeded(old(whitelist), users, ByName)
      ensures whitelistById == Seeded(old(whitelistById), users, ById)
      ensures ircCalls == old(ircCalls)
    {
      var i := 0;
      while i < |users|
        invariant 0 <= i <= |users|
        invariant Valid()
        invariant whitelist == Seeded(old(whitelist), users[..i], ByName)
        invariant whitelistById == Seeded(old(whitelistById), users[..i], ById)
        invariant ircCalls == old(ircCalls)
      {
        assert users[..i + 1][..i] == users[..i];
        AddUsername(users[i]);
        i := i + 1;
      }
      assert users[..|users|] == users;
    }

    /** The loop over the stored channels: joins each by name, in list order. */
    method JoinAll(stored: seq<Channel>)
      modifies this
      ensures ircCalls == old(ircCalls) + JoinCalls(stored)
      ensures whitelist == old(whitelist) && whitelistById == old(whitelistById)
    {
      var j := 0;
      while j < |stored|
        invariant 0 <= j <= |stored|
        invariant whitelist == old(whitelist) && whitelistById == old(whitelistById)
        invariant ircCalls == old(ircCalls) + JoinCalls(stored[..j])
      {
        assert JoinCalls(stored[..j + 1]) == JoinCalls(stored[..j]) + [JoinCall([stored[j].name])];
        JoinChannel([stored[j].name]);
        j := j + 1;
      }
      assert stored[..|stored|] == stored;
    }

    /**
     * Seeds the whitelist with the stored users, joins every stored channel,
     * and filters the IRC stream for PRIVMSG trigger messages. A repository
     * error is returned as soon as it occurs.
     */
    method StartMessagePipeline(
      usernames: Result<seq<User>, RepositoryError>,
      channels: Result<seq<Channel>, RepositoryError>,
      events: seq<Irc.PrivateMessage>)
      returns (err: Option<RepositoryError>, messageTypes: seq<uint8>, forwarded: seq<Message>)
      requires Valid()
      modifies this
      ensures Valid()
      ensures usernames.Failure? ==>
        err == Some(usernames.error) && whitelist == old(whitelist)
        && whitelistById == old(whitelistById) && ircCalls == old(ircCalls)
      ensures usernames.Success? ==>
        whitelist == Seeded(old(whitelist), usernames.value, ByName)
        && whitelistById == Seeded(old(whitelistById), usernames.value, ById)
      ensures usernames.Success? && channels.Failure? ==>
        err == Some(channels.error) && ircCalls == old(ircCalls)
      ensures usernames.Success? && channels.Success? ==>
        && err == None
        && ircCalls == old(ircCalls) + JoinCalls(channels.value)
        && messageTypes == [PrivMsg]
        && forwarded == Pipelines.Filtered(Irc.MessageStream(events), [PrivMsg])
    {
      messageTypes, forwarded := [], [];
      if usernames.Failure? {
        return Some(usernames.error), messageTypes, forwarded;
      }
      AddAll(usernames.value);
      if channels.Failure? {
        return Some(channels.error), messageTypes, forwarded;
      }
      JoinAll(channels.value);
      messageTypes := [PrivMsg];
      var stream := Pipelines.ClosedStream(Irc.MessageStream(events));
      Pipelines.ClosedStreamDelivers(Irc.MessageStream(events));
      var end;
      forwarded, end := Pipelines.FilterMessageStream(stream, messageTypes);
      err := None;
    }
  }

  // ----- Properties of seeding -----

  /** After seeding, every loaded user's key is present. */
  lemma {:induction false} SeededContainsAll(m: map<string, User>, users: seq<User>, kind: KeyKind)
    ensures forall u :: u in users ==> Key(u, kind) in Seeded(m, users, kind)
  {
    if users != [] {
      var init := users[..|users| - 1];
      SeededContainsAll(m, init, kind);
      assert forall u :: u in users ==> u in init || u == users[|users| - 1];
    }
  }

  /** A loaded user not followed by another with the same key is the entry under its key (last write wins). */
  lemma {:induction false} SeededLastWriteWins(m: map<string, User>, users: seq<User>, kind: KeyKind, i: nat)
    requires i < |users|
    requires forall j :: i < j < |users| ==> Key(users[j], kind) != Key(users[i], kind)
    ensures Key(users[i], kind) in Seeded(m, users, kind) && Seeded(m, users, kind)[Key(users[i], kind)] == users[i]
  {
    if i < |users| - 1 {
      var init := users[..|users| - 1];
      SeededLastWriteWins(m, init, kind, i);
    }
  }

  /** Keys that no loaded user has keep their earlier entry. */
  lemma {:induction false} SeededKeepsOthers(m: map<string, User>, users: seq<User>, kind: KeyKind, key: string)
    requires forall u :: u in users ==> Key(u, kind) != key
    ensures key in Seeded(m, users, kind) <==> key in m
    ensures key in m ==> Seeded(m, users, kind)[key] == m[key]
  {
    if users != [] {
      var init := users[..|users| - 1];
      assert forall u :: u in init ==> u in users;
      SeededKeepsOthers(m, init, kind, key);
    }
  }

  /** Adding then removing a user whose keys were absent leaves both maps as they were. */
  method AddThenRemoveRestores(app: App, u: User)
    requires app.Valid() && u.username !in app.whitelist && u.id !in app.whitelistById
    modifies app
    ensures app.whitelist == old(app.whitelist) && app.whitelistById == old(app.whitelistById)
  {
    app.AddUsername(u);
    app.RemoveUsername(u);
    assert app.whitelist == old(app.whitelist);
  }
}
