# discord-pwd: passphrase-protected channels, modelled in Dafny

The bot keeps a JSON object that maps a channel id to `{salt, hash}`. It
answers three slash commands:

- `pwd-list` names the protected channel ids.
- `pwd-new <channelname> <passphrase>` finds the channel by name, stores a
  fresh salted PBKDF2 hash under the channel's id, and denies ViewChannel to
  `@everyone`.
- `pwd-unlock <channelname> <passphrase>` checks the passphrase. On success it
  grants ViewChannel to the calling user and sets a 30-minute timer that
  deletes that user's overwrite.

This project models that handler and proves what it does.

| file | module | models |
|---|---|---|
| `wrappers.dfy` | `Wrappers` | `Option` (a lookup that found nothing) |
| `hex.dfy` | `Hex` | `toString('hex')` and its inverse |
| `passphrase.dfy` | `Passphrase` | `hashPassphrase`, `verifyPassphrase` |
| `channels.dfy` | `Channels` | `guild.channels.cache.find(ch => ch.name === name)` |
| `listing.dfy` | `Listing` | `Object.keys(data).join(', ') \|\| 'None'` and reading it back |
| `commands.dfy` | `Commands` | the bot state and each command as a transition on it |
| `bot.dfy` | `Bot` | class `Handler`: the same commands as methods that update fields in place |

The state has four parts:

- the credential map, with its key order;
- the set of channels hidden from `@everyone`;
- the set of (channel, user) view overwrites;
- the queue of revocation timers not yet fired, each with its delay in ms.

`Commands` defines each command as a pure function from one state to the
next, together with the reply kind. Each `Bot.Handler` method is proved to
make exactly that transition.

PBKDF2 (section 5.2 of RFC 8018; HMAC-SHA-512, 1000 iterations, 64-byte key)
is not defined here. Every operation takes it as a parameter `kdf` of type
`Pbkdf2`: any deterministic function of the passphrase, the salt text, the
iteration count, the key length and the digest. The 16 bytes from
`crypto.randomBytes(16)` are a parameter too. The guild's channel cache and the
calling user's id are passed to each command.

## Model

| member | source | states |
|---|---|---|
| `Hex.Encode` | bot/index.js:14-17 | the hex text has two characters per byte, all of them lower-case hex digits |
| `Hex.DecodeEncode` | bot/index.js:14-17 | decoding the hex text gives back the original bytes |
| `Hex.EncodeDecode` | bot/index.js:14-17 | a string that decodes is the encoding of what it decodes to, so the hex form is canonical |
| `Hex.EncodeInjective` | bot/index.js:25 | two hex texts are equal exactly when their bytes are equal, so comparing stored and recomputed hex compares the keys |
| `Passphrase.HashPassphrase` | bot/index.js:13-19 | the salt is 32 hex characters and decodes to the 16 random bytes; the hash decodes to PBKDF2(passphrase, salt, 1000, 64, sha512); it is 128 hex characters when the KDF returns the requested 64 bytes; the result always verifies for the same passphrase |
| `Passphrase.VerifyPassphrase` | bot/index.js:21-26 | accepts exactly when the stored hash decodes to the key recomputed with the stored salt and the same parameters |
| `Passphrase.AcceptsExactlySameKey` | bot/index.js:13-26 | a credential made for `p` accepts `q` if and only if `q` derives the same key as `p` under that salt |
| `Channels.IndexOfName` | bot/index.js:100-102 | the result is the first position whose channel has the given name; nothing is returned exactly when no channel has that name |
| `Channels.FindChannel` | bot/index.js:122-124 | the channel found is the one at the first position with that name; "not found" exactly when no cached channel has the name |
| `Channels.LaterNamesakeNeverFound` | bot/index.js:100-102 | in a cache keyed by id, a channel with the same name as an earlier one is never the one found |
| `Listing.Join` | bot/index.js:95 | an empty list joins to "" and one key joins to itself; `Listing.SplitJoin` fixes the rest of its content |
| `Listing.SplitJoin` | bot/index.js:95 | cutting the joined text at ", " gives back the keys, provided no key contains a comma |
| `Listing.ListText` | bot/index.js:95 | the text is "None" for an empty map; for snowflake ids it is "None" only for an empty map |
| `Listing.ListRoundTrip` | bot/index.js:95 | for snowflake ids, the listing reads back to exactly the stored ids in their order |
| `Commands.List` | bot/index.js:94-96 | `pwd-list` leaves the state unchanged; for snowflake ids its reply reads back to the stored key order |
| `Commands.Protect` | bot/index.js:97-118 | channel not found: same state, "not found" reply. Found: the credential for that channel's id is replaced, every other entry is kept, and the new entry verifies for the passphrase with a salt that decodes to the random bytes. A new id goes at the end of the key order and an existing id keeps its place. The channel joins the hidden set. Overwrites and timers are unchanged |
| `Commands.Unlock` | bot/index.js:119-152 | never changes credentials or the hidden set. Replies "not found" if and only if no channel has the name, else "not protected" if and only if its id has no credential, else "invalid passphrase" if and only if verification fails. Every failure leaves the state unchanged. Success adds exactly (channel id, user) to the overwrites and appends one timer for that pair with delay 1800000 ms |
| `Commands.Revoke` | bot/index.js:149-151 | the earliest timer leaves the queue and its (channel, user) overwrite is deleted; credentials and the hidden set are unchanged; with no timer nothing changes |
| `Commands.Handle` | bot/index.js:87-153 | other interactions change nothing and get no reply; `pwd-list` changes nothing; only `pwd-new` touches credentials and the hidden set; only `pwd-unlock` touches overwrites and timers |
| `Commands.ProtectThenUnlock` | bot/index.js:108-143 | right after `pwd-new` on a channel, `pwd-unlock` with the same name and passphrase succeeds |
| `Commands.LatestProtectWins` | bot/index.js:108-110 | after protecting a channel twice, the stored credential is the second one, it accepts a passphrase exactly when that passphrase derives the second passphrase's key, and the key order did not change |
| `Commands.UnlockRevokedInTurn` | bot/index.js:141-151 | after a successful unlock, once the timers already pending have fired, only the unlock's own timer is left; once it fires too, the user's overwrite on that channel is gone, no timer remains and the credentials are unchanged |
| `Commands.InitialGuarded` | bot/index.js:9-11 | the empty start satisfies both handler invariants: every view overwrite has a pending timer for the same channel and user, and every protected channel is hidden from `@everyone` |
| `Commands.ProtectKeeps` | bot/index.js:108-114 | `pwd-new` keeps both invariants: the channel it stores a credential for is also hidden |
| `Commands.UnlockKeeps` | bot/index.js:141-151 | `pwd-unlock` keeps both invariants: the overwrite it adds comes with its own timer, and earlier overwrites keep theirs |
| `Commands.RevokeKeeps` | bot/index.js:149-151 | a firing timer keeps both invariants: the overwrite whose timer left the queue is deleted with it |
| `Commands.HandleKeeps` | bot/index.js:87-153 | every interaction keeps both invariants, so no overwrite outlives its timers and no protected channel is visible to `@everyone` |
| `Commands.RepeatedUnlockCutShort` | bot/index.js:149-151 | after two unlocks by one user, the first timer to fire deletes the overwrite even though the second timer is still pending |
| `Bot.Handler.constructor` | bot/index.js:9-11 | the bot starts with an empty store, nothing hidden, no overwrites and no timers, and its invariant (`Valid`: well-formed store, every overwrite scheduled, every protected channel hidden) holds |
| `Bot.Handler.ListChannels` | bot/index.js:94-96 | replies with the listing of `Commands.List` and changes no field |
| `Bot.Handler.ProtectChannel` | bot/index.js:97-118 | updates the fields in place to exactly the state `Commands.Protect` gives and returns its reply |
| `Bot.Handler.UnlockChannel` | bot/index.js:119-152 | updates the fields in place to exactly the state `Commands.Unlock` gives and returns its reply |
| `Bot.Handler.FireRevocation` | bot/index.js:149-151 | fires exactly when a timer is pending and leaves the state `Commands.Revoke` gives |
| `Bot.Handler.HandleInteraction` | bot/index.js:87-153 | dispatches on the command and makes the transition `Commands.Handle` gives |

## Behaviour of the code worth knowing

- Grants are not keyed by (channel, user). A second unlock adds a second
  timer and does not extend the first. The first timer deletes the overwrite
  (`Commands.RepeatedUnlockCutShort`).
- No timer survives a restart, and there is no catch-up pass. Only the
  in-memory timer queue is modelled.
- The hash comparison is JavaScript `===` on hex strings, not a constant-time
  comparison.
- "not protected" and "invalid passphrase" are separate replies.
- `pwd-new` reports a channel that is not found. Otherwise it stores and hides
  the channel without any further check.

## Left out

- Client setup, login, the `ready` log line and registration of the slash commands (bot/index.js:1-7, 28-85, 155): platform and network glue.
- File I/O and JSON encoding (bot/index.js:9-11, 92, 110). The store is taken as persisted exactly. Each command sees the state the previous one left. The initial state is the empty object that the startup code writes.
- The internals of PBKDF2, HMAC-SHA-512 and `crypto.randomBytes`. The KDF is a parameter and the random bytes are an argument. Node encodes both strings to UTF-8 before deriving; that happens inside the KDF and is not modelled.
- Real time and concurrency. The model has no clock and does not interleave handlers. Timers fire in the order they were set, which holds because all of them have the same 30-minute delay.
- Failures of platform calls: a rejected `permissionOverwrites.edit` or `delete`, or a failed reply. On such a failure the real handler stops partway, for example after writing the file but before hiding the channel. The model assumes every platform call succeeds.
- Permission bits other than ViewChannel. `permissionOverwrites.delete` removes the user's entire overwrite. The model records only whether the user has a view overwrite, and does not model overwrites set up by anyone other than the bot.
- The exact reply texts. Only the reply kind and the channel name are modelled. The `pwd-list` text is modelled without its "pwd-protected channels: " prefix.
- JavaScript object quirks for unusual keys. Array-index keys (canonical numerals below 2^32 - 1) are enumerated first by `Object.keys`, in ascending order, and inherited names such as `constructor` exist on every object. The model treats keys as plain strings in insertion order. The listing properties are stated for snowflake ids (`Listing.IsSnowflake`: at least 11 digits, no leading zero), which are never array indices.
- `Listing.ListText`: that "None" means an empty store is proved only for snowflake ids. A store whose only key is "" or "None" would also print "None".
- `Channels.LaterNamesakeNeverFound`: stated for a cache with unique ids, as Discord's cache is keyed by channel id.
