/** Shared vocabulary of the poll and reaction model: optional values, the
    first-match scan that attribute lookups and enum decoding both use, and
    the handles of the host message and connection that polls, answers and
    reactions refer to without owning. */
module Common {

  /** Python's `Optional[T]`: `None` or a value. */
  datatype Option<+T> = None | Some(value: T) {

    /** The value, or `default` when there is none (`dict.get(key, default)`). */
    function GetOr(default: T): T {
      match this
      case Some(v) => v
      case None => default
    }
  }

  /** The position of the first element of `s` whose key is `k`, scanning from
      the front; `None` when no element has that key. */
  function FirstIndex<T, K(==)>(s: seq<T>, key: T -> K, k: K): (r: Option<nat>)
    ensures r.Some? ==> r.value < |s| && key(s[r.value]) == k
    ensures r.Some? ==> forall j :: 0 <= j < r.value ==> key(s[j]) != k
    ensures r.None? <==> forall j :: 0 <= j < |s| ==> key(s[j]) != k
  {
    if s == [] then None
    else if key(s[0]) == k then Some(0)
    else
      match FirstIndex(s[1..], key, k)
      case None => None
      case Some(i) => Some(i + 1)
  }

  /** The connection a message or poll was received on (opaque). */
  datatype ConnectionState = ConnectionState(id: nat)

  /** A channel: its snowflake and, for a guild channel, the guild's. */
  datatype Channel = Channel(id: nat, guild: Option<nat>)

  /** The host message: only its identifiers, its channel, its creation time
      (microseconds since the epoch) and the connection it came from. */
  datatype Message = Message(id: nat, channel: Channel, createdAt: int, state: ConnectionState)
}
