/**
 * The `interactionCreate` handler as transitions on the bot's state: the
 * credential map read from and written to the JSON file, the channels hidden
 * from `@everyone`, the per-user view overwrites, and the revocation timers
 * not yet fired.
 */
module Commands {
  import opened Wrappers
  import opened Hex
  import opened Passphrase
  import opened Channels
  import Listing

  type ChannelId = string
  type UserId = string

  /** A member overwrite granting one user ViewChannel on one channel. */
  datatype Overwrite = Overwrite(channel: ChannelId, user: UserId)

  /** A `setTimeout` that will delete a user's overwrite after `delayMs`. */
  datatype Revocation = Revocation(channel: ChannelId, user: UserId, delayMs: nat)

  const RevocationDelayMs: nat := 30 * 60 * 1000

  /**
   * `order` is the key order of the `data` object (first insertion order),
   * which is the order `Object.keys` and the JSON file keep.
   */
  datatype State = State(
    order: seq<ChannelId>,
    credentials: map<ChannelId, Credential>,
    hidden: set<ChannelId>,
    userViews: set<Overwrite>,
    pending: seq<Revocation>)

  predicate Valid(s: State) {
    (forall i, j :: 0 <= i < j < |s.order| ==> s.order[i] != s.order[j]) &&
    (forall id :: id in s.credentials ==> id in s.order) &&
    (forall i :: 0 <= i < |s.order| ==> s.order[i] in s.credentials)
  }

  /** The file starts as `{}`; nothing is hidden, revealed or scheduled. */
  const Initial := State([], map[], {}, {}, [])

  datatype Reply =
    | NoReply
    | Listed(channels: string)
    | ChannelNotFound(channelName: string)
    | NowProtected(channelName: string)
    | NotProtected(channelName: string)
    | InvalidPassphrase
    | Unlocked(channelName: string)

  datatype Step = Step(state: State, reply: Reply)

  /** A chat-input command, or `Ignored` for every other interaction. */
  datatype Command =
    | PwdList
    | PwdNew(channelName: string, passphrase: string)
    | PwdUnlock(channelName: string, passphrase: string)
    | Ignored

  /** `pwd-list`: the stored ids joined by ", ", or "None". */
  function List(s: State): (r: Step)
    ensures r.state == s
    ensures r.reply.Listed?
    ensures (forall i :: 0 <= i < |s.order| ==> Listing.IsSnowflake(s.order[i])) ==>
      Listing.ParseList(r.reply.channels) == s.order
  {
    var text := Listing.ListText(s.order);
    assert (forall i :: 0 <= i < |s.order| ==> Listing.IsSnowflake(s.order[i])) ==>
        Listing.ParseList(text) == s.order by {
      if forall i :: 0 <= i < |s.order| ==> Listing.IsSnowflake(s.order[i]) {
        Listing.ListRoundTrip(s.order);
      }
    }
    Step(s, Listed(text))
  }

  /** `pwd-new`: store a fresh credential under the channel's id, then hide it. */
  function Protect(s: State, kdf: Pbkdf2, cache: seq<Channel>, name: string, passphrase: string,
                   randomBytes: seq<byte>): (r: Step)
    requires Valid(s)
    requires |randomBytes| == SaltLength
    ensures Valid(r.state)
    ensures r.state.userViews == s.userViews && r.state.pending == s.pending
    ensures FindChannel(cache, name).None? ==> r == Step(s, ChannelNotFound(name))
    ensures FindChannel(cache, name).Some? ==>
      var id := FindChannel(cache, name).value.id;
      && r.reply == NowProtected(name)
      && r.state.credentials.Keys == s.credentials.Keys + {id}
      && (forall other :: other in s.credentials && other != id ==>
            r.state.credentials[other] == s.credentials[other])
      && VerifyPassphrase(kdf, passphrase, r.state.credentials[id].salt, r.state.credentials[id].hash)
      && Decode(r.state.credentials[id].salt) == Some(randomBytes)
      && (id in s.credentials ==> r.state.order == s.order)
      && (id !in s.credentials ==> r.state.order == s.order + [id])
      && r.state.hidden == s.hidden + {id}
  {
    match FindChannel(cache, name)
    case None => Step(s, ChannelNotFound(name))
    case Some(ch) =>
      var order := if ch.id in s.credentials then s.order else s.order + [ch.id];
      var credentials := s.credentials[ch.id := HashPassphrase(kdf, passphrase, randomBytes)];
      Step(s.(order := order, credentials := credentials, hidden := s.hidden + {ch.id}),
           NowProtected(name))
  }

  /** The three checks of `pwd-unlock` pass: found, protected, passphrase accepted. */
  predicate Admits(s: State, kdf: Pbkdf2, cache: seq<Channel>, name: string, passphrase: string) {
    && FindChannel(cache, name).Some?
    && FindChannel(cache, name).value.id in s.credentials
    && var c := s.credentials[FindChannel(cache, name).value.id];
       VerifyPassphrase(kdf, passphrase, c.salt, c.hash)
  }

  /**
   * `pwd-unlock`: reveal the channel to the user and schedule the deletion of
   * that overwrite after thirty minutes.
   */
  function Unlock(s: State, kdf: Pbkdf2, cache: seq<Channel>, user: UserId, name: string,
                  passphrase: string): (r: Step)
    ensures r.state.order == s.order && r.state.credentials == s.credentials
    ensures r.state.hidden == s.hidden
    ensures !r.reply.Unlocked? ==> r.state == s
    ensures r.reply == ChannelNotFound(name) <==> FindChannel(cache, name).None?
    ensures r.reply == NotProtected(name) <==>
      FindChannel(cache, name).Some? && FindChannel(cache, name).value.id !in s.credentials
    ensures r.reply == InvalidPassphrase <==>
      FindChannel(cache, name).Some? && FindChannel(cache, name).value.id in s.credentials &&
      !Admits(s, kdf, cache, name, passphrase)
    ensures r.reply.Unlocked? <==> Admits(s, kdf, cache, name, passphrase)
    ensures r.reply.Unlocked? ==>
      var id := FindChannel(cache, name).value.id;
      && r.reply == Unlocked(name)
      && r.state.userViews == s.userViews + {Overwrite(id, user)}
      && r.state.pending == s.pending + [Revocation(id, user, RevocationDelayMs)]
  {
    match FindChannel(cache, name)
    case None => Step(s, ChannelNotFound(name))
    case Some(ch) =>
      if ch.id !in s.credentials then Step(s, NotProtected(name))
      else if !VerifyPassphrase(kdf, passphrase, s.credentials[ch.id].salt, s.credentials[ch.id].hash) then
        Step(s, InvalidPassphrase)
      else
        Step(s.(userViews := s.userViews + {Overwrite(ch.id, user)},
                pending := s.pending + [Revocation(ch.id, user, RevocationDelayMs)]),
             Unlocked(name))
  }

  /**
   * The earliest timer fires. Every timer has the same delay, so they fire in
   * the order they were set; the user's overwrite on the channel is deleted.
   */
  function Revoke(s: State): (r: State)
    ensures r.order == s.order && r.credentials == s.credentials && r.hidden == s.hidden
    ensures s.pending == [] ==> r == s
    ensures s.pending != [] ==>
      && r.pending == s.pending[1..]
      && r.userViews == s.userViews - {Overwrite(s.pending[0].channel, s.pending[0].user)}
  {
    if s.pending == [] then s
    else s.(userViews := s.userViews - {Overwrite(s.pending[0].channel, s.pending[0].user)},
            pending := s.pending[1..])
  }

  /** The handler's dispatch on the command name. */
  function Handle(s: State, kdf: Pbkdf2, cache: seq<Channel>, user: UserId, randomBytes: seq<byte>,
                  cmd: Command): (r: Step)
    requires Valid(s)
    requires |randomBytes| == SaltLength
    ensures Valid(r.state)
    ensures cmd.Ignored? ==> r == Step(s, NoReply)
    ensures cmd.PwdList? ==> r.state == s && r.reply.Listed?
    ensures !cmd.PwdNew? ==>
      r.state.order == s.order && r.state.credentials == s.credentials && r.state.hidden == s.hidden
    ensures !cmd.PwdUnlock? ==> r.state.userViews == s.userViews && r.state.pending == s.pending
  {
    match cmd
    case PwdList => List(s)
    case PwdNew(name, passphrase) => Protect(s, kdf, cache, name, passphrase, randomBytes)
    case PwdUnlock(name, passphrase) => Unlock(s, kdf, cache, user, name, passphrase)
    case Ignored => Step(s, NoReply)
  }

  /** Protecting a channel and then unlocking it with the same passphrase succeeds. */
  lemma ProtectThenUnlock(s: State, kdf: Pbkdf2, cache: seq<Channel>, user: UserId, name: string,
                          passphrase: string, randomBytes: seq<byte>)
    requires Valid(s) && |randomBytes| == SaltLength
    requires FindChannel(cache, name).Some?
    ensures var p := Protect(s, kdf, cache, name, passphrase, randomBytes).state;
      Unlock(p, kdf, cache, user, name, passphrase).reply == Unlocked(name)
  {
  }

  /**
   * After protecting a channel twice, the stored credential accepts a
   * passphrase exactly when it derives the same key as the second one.
   */
  lemma LatestProtectWins(s: State, kdf: Pbkdf2, cache: seq<Channel>, name: string,
                          first: string, second: string, bytes1: seq<byte>, bytes2: seq<byte>,
                          candidate: string)
    requires Valid(s) && |bytes1| == SaltLength && |bytes2| == SaltLength
    requires FindChannel(cache, name).Some?
    ensures
      var once := Protect(s, kdf, cache, name, first, bytes1).state;
      var twice := Protect(once, kdf, cache, name, second, bytes2).state;
      var c := twice.credentials[FindChannel(cache, name).value.id];
      && c == HashPassphrase(kdf, second, bytes2)
      && (VerifyPassphrase(kdf, candidate, c.salt, c.hash) <==>
          DerivedKey(kdf, candidate, c.salt) == DerivedKey(kdf, second, c.salt))
      && twice.order == once.order
  {
  }

  /** The state after the `n` earliest timers have fired. */
  function RevokeMany(s: State, n: nat): (r: State)
    ensures r.credentials == s.credentials && r.hidden == s.hidden
    ensures n <= |s.pending| ==> r.pending == s.pending[n..]
  {
    if n == 0 then s else Revoke(RevokeMany(s, n - 1))
  }

  /**
   * Whatever timers were already pending, once they and the unlock's own
   * timer have fired the user's overwrite on that channel is gone.
   */
  lemma UnlockRevokedInTurn(s: State, kdf: Pbkdf2, cache: seq<Channel>, user: UserId, name: string,
                            passphrase: string)
    requires Admits(s, kdf, cache, name, passphrase)
    ensures
      var id := FindChannel(cache, name).value.id;
      var unlocked := Unlock(s, kdf, cache, user, name, passphrase).state;
      var before := RevokeMany(unlocked, |s.pending|);
      var after := RevokeMany(unlocked, |s.pending| + 1);
      && before.pending == [Revocation(id, user, RevocationDelayMs)]
      && after.pending == []
      && Overwrite(id, user) !in after.userViews
      && after.credentials == s.credentials
  {
  }

  /** Every view overwrite still has a timer pending for the same channel and user. */
  ghost predicate ViewsScheduled(s: State) {
    forall o :: o in s.userViews ==>
      exists i :: 0 <= i < |s.pending| && s.pending[i].channel == o.channel && s.pending[i].user == o.user
  }

  /** Every protected channel is hidden from `@everyone`. */
  ghost predicate ProtectedHidden(s: State) {
    forall id :: id in s.credentials ==> id in s.hidden
  }

  /** What the handler keeps true from its empty start. */
  ghost predicate Guarded(s: State) {
    ViewsScheduled(s) && ProtectedHidden(s)
  }

  lemma InitialGuarded()
    ensures Guarded(Initial)
  {
  }

  lemma ProtectKeeps(s: State, kdf: Pbkdf2, cache: seq<Channel>, name: string, passphrase: string,
                     randomBytes: seq<byte>)
    requires Valid(s) && |randomBytes| == SaltLength
    requires Guarded(s)
    ensures Guarded(Protect(s, kdf, cache, name, passphrase, randomBytes).state)
  {
  }

  lemma UnlockKeeps(s: State, kdf: Pbkdf2, cache: seq<Channel>, user: UserId, name: string,
                    passphrase: string)
    requires Guarded(s)
    ensures Guarded(Unlock(s, kdf, cache, user, name, passphrase).state)
  {
    var r := Unlock(s, kdf, cache, user, name, passphrase);
    if r.reply.Unlocked? {
      var id := FindChannel(cache, name).value.id;
      forall o | o in r.state.userViews
        ensures exists i :: 0 <= i < |r.state.pending| && r.state.pending[i].channel == o.channel &&
                            r.state.pending[i].user == o.user
      {
        if o == Overwrite(id, user) {
          assert r.state.pending[|s.pending|] == Revocation(id, user, RevocationDelayMs);
        } else {
          var i :| 0 <= i < |s.pending| && s.pending[i].channel == o.channel && s.pending[i].user == o.user;
          assert r.state.pending[i] == s.pending[i];
        }
      }
    }
  }

  lemma RevokeKeeps(s: State)
    requires Guarded(s)
    ensures Guarded(Revoke(s))
  {
  }

  lemma HandleKeeps(s: State, kdf: Pbkdf2, cache: seq<Channel>, user: UserId, randomBytes: seq<byte>,
                    cmd: Command)
    requires Valid(s) && |randomBytes| == SaltLength
    requires Guarded(s)
    ensures Guarded(Handle(s, kdf, cache, user, randomBytes, cmd).state)
  {
    match cmd
    case PwdNew(name, passphrase) => ProtectKeeps(s, kdf, cache, name, passphrase, randomBytes);
    case PwdUnlock(name, passphrase) => UnlockKeeps(s, kdf, cache, user, name, passphrase);
    case _ =>
  }

  /**
   * Unlocking twice sets two timers; the first one to fire deletes the
   * overwrite although the second unlock's thirty minutes have not run out.
   */
  lemma RepeatedUnlockCutShort(s: State, kdf: Pbkdf2, cache: seq<Channel>, user: UserId, name: string,
                               passphrase: string)
    requires s.pending == []
    requires Admits(s, kdf, cache, name, passphrase)
    ensures
      var id := FindChannel(cache, name).value.id;
      var once := Unlock(s, kdf, cache, user, name, passphrase).state;
      var twice := Unlock(once, kdf, cache, user, name, passphrase).state;
      var fired := Revoke(twice);
      && fired.pending == [Revocation(id, user, RevocationDelayMs)]
      && Overwrite(id, user) !in fired.userViews
  {
  }
}
