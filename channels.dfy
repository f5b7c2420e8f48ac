/**
 * The guild's channel cache and `cache.find(ch => ch.name === channelName)`:
 * the first channel, in cache order, whose name is exactly the one given.
 */
module Channels {
  import opened Wrappers

  datatype Channel = Channel(id: string, name: string)

  /** `i` is the position of the first channel named `name`. */
  predicate FirstNamed(cache: seq<Channel>, name: string, i: nat) {
    i < |cache| && cache[i].name == name &&
    forall j :: 0 <= j < i ==> cache[j].name != name
  }

  function IndexOfName(cache: seq<Channel>, name: string): (r: Option<nat>)
    ensures r.Some? ==> FirstNamed(cache, name, r.value)
    ensures r.None? <==> forall j :: 0 <= j < |cache| ==> cache[j].name != name
  {
    if cache == [] then None
    else if cache[0].name == name then Some(0)
    else match IndexOfName(cache[1..], name)
      case None => None
      case Some(i) => Some(i + 1)
  }

  function FindChannel(cache: seq<Channel>, name: string): (r: Option<Channel>)
    ensures r.None? <==> forall ch :: ch in cache ==> ch.name != name
    ensures r.Some? ==> exists i: nat :: FirstNamed(cache, name, i) && cache[i] == r.value
  {
    match IndexOfName(cache, name)
    case None => None
    case Some(i) => Some(cache[i])
  }

  /** The cache is keyed by channel id. */
  predicate UniqueIds(cache: seq<Channel>) {
    forall a, b :: 0 <= a < b < |cache| ==> cache[a].id != cache[b].id
  }

  /** Of several same-named channels only the first is ever found. */
  lemma LaterNamesakeNeverFound(cache: seq<Channel>, name: string, i: nat, j: nat)
    requires UniqueIds(cache)
    requires i < j < |cache| && cache[i].name == name && cache[j].name == name
    ensures FindChannel(cache, name).Some? && FindChannel(cache, name).value.id != cache[j].id
  {
  }
}
