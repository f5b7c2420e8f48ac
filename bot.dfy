/**
 * The bot's mutable state and its `interactionCreate` handler. The handler
 * updates the credential map in place (`data[channel.id] = ...`), edits and
 * deletes channel permission overwrites, and sets revocation timers; each
 * method is proved to make exactly the transition of the same name in
 * Commands.
 */
module Bot {
  import opened Hex
  import opened Passphrase
  import opened Channels
  import Listing
  import opened Commands

  class Handler {
    /** Key order of the persisted credential object. */
    var order: seq<ChannelId>
    /** The persisted credential object, channel id to `{salt, hash}`. */
    var data: map<ChannelId, Credential>
    /** Channels whose `@everyone` overwrite denies ViewChannel. */
    var hidden: set<ChannelId>
    /** Member overwrites granting ViewChannel. */
    var userViews: set<Overwrite>
    /** Timers set and not yet fired, earliest first. */
    var pending: seq<Revocation>

    function Snapshot(): State
      reads this
    {
      State(order, data, hidden, userViews, pending)
    }

    /**
     * The store is well formed, every view overwrite has its timer pending,
     * and every protected channel is hidden.
     */
    ghost predicate Valid()
      reads this
    {
      Commands.Valid(Snapshot()) && Guarded(Snapshot())
    }

    constructor ()
      ensures Valid() && Snapshot() == Initial
    {
      order, data, hidden, userViews, pending := [], map[], {}, {}, [];
    }

    /** `pwd-list`: reads the store and changes nothing. */
    method ListChannels() returns (reply: Reply)
      requires Valid()
      ensures Step(Snapshot(), reply) == List(Snapshot())
    {
      reply := Listed(Listing.ListText(order));
    }

    /** `pwd-new`. */
    method ProtectChannel(kdf: Pbkdf2, cache: seq<Channel>, name: string, passphrase: string,
                          randomBytes: seq<byte>) returns (reply: Reply)
      requires Valid()
      requires |randomBytes| == SaltLength
      modifies this
      ensures Valid()
      ensures Step(Snapshot(), reply) == Protect(old(Snapshot()), kdf, cache, name, passphrase, randomBytes)
    {
      ProtectKeeps(Snapshot(), kdf, cache, name, passphrase, randomBytes);
      var found := FindChannel(cache, name);
      if found.None? {
        return ChannelNotFound(name);
      }
      var channel := found.value;
      var credential := HashPassphrase(kdf, passphrase, randomBytes);
      if channel.id !in data {
        order := order + [channel.id];
      }
      data := data[channel.id := credential];
      hidden := hidden + {channel.id};
      reply := NowProtected(name);
    }

    /** `pwd-unlock`. */
    method UnlockChannel(kdf: Pbkdf2, cache: seq<Channel>, user: UserId, name: string,
                         passphrase: string) returns (reply: Reply)
      requires Valid()
      modifies this
      ensures Valid()
      ensures Step(Snapshot(), reply) == Unlock(old(Snapshot()), kdf, cache, user, name, passphrase)
    {
      UnlockKeeps(Snapshot(), kdf, cache, user, name, passphrase);
      var found := FindChannel(cache, name);
      if found.None? {
        return ChannelNotFound(name);
      }
      var channel := found.value;
      if channel.id !in data {
        return NotProtected(name);
      }
      var credential := data[channel.id];
      if !VerifyPassphrase(kdf, passphrase, credential.salt, credential.hash) {
        return InvalidPassphrase;
      }
      userViews := userViews + {Overwrite(channel.id, user)};
      reply := Unlocked(name);
      pending := pending + [Revocation(channel.id, user, RevocationDelayMs)];
    }

    /** The earliest pending timer fires, if there is one. */
    method FireRevocation() returns (fired: bool)
      requires Valid()
      modifies this
      ensures Valid()
      ensures fired <==> old(pending) != []
      ensures Snapshot() == Revoke(old(Snapshot()))
    {
      RevokeKeeps(Snapshot());
      fired := pending != [];
      if fired {
        var timer := pending[0];
        pending := pending[1..];
        userViews := userViews - {Overwrite(timer.channel, timer.user)};
      }
    }

    /** One `interactionCreate` event. */
    method HandleInteraction(kdf: Pbkdf2, cache: seq<Channel>, user: UserId, randomBytes: seq<byte>,
                             cmd: Command) returns (reply: Reply)
      requires Valid()
      requires |randomBytes| == SaltLength
      modifies this
      ensures Valid()
      ensures Step(Snapshot(), reply) == Handle(old(Snapshot()), kdf, cache, user, randomBytes, cmd)
    {
      match cmd
      case PwdList =>
        reply := ListChannels();
      case PwdNew(name, passphrase) =>
        reply := ProtectChannel(kdf, cache, name, passphrase, randomBytes);
      case PwdUnlock(name, passphrase) =>
        reply := UnlockChannel(kdf, cache, user, name, passphrase);
      case Ignored =>
        reply := NoReply;
    }
  }
}
