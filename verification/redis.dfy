/**
 * The key-value cache the service talks to through go-redis `Get` and `Set`.
 * The server is an in-memory map from key to entry; each entry keeps the TTL
 * it was last written with. Whether one round trip reaches the server is not
 * the cache's choice, so every call takes the network's answer as a `Link`.
 */
module Redis {
  import opened Wrappers

  /** `time.Duration`, kept as an opaque count of nanoseconds. */
  datatype Duration = Duration(nanos: int)

  /** The outcome of one round trip: delivered, or broken with the client's error text. */
  datatype Link = Up | Down(reason: string)

  /** Errors a go-redis command returns: `redis.Nil` for a missing key, or an I/O failure. */
  datatype RedisError = Nil | Io(reason: string)

  datatype Entry = Entry(value: string, ttl: Duration)

  /** One `SET key value EX ttl` command as the client issued it. */
  datatype Write = Write(key: string, value: string, ttl: Duration)

  /** The `(string, error)` pair `Get(key).Result()` yields. */
  function Reply(store: map<string, Entry>, key: string, link: Link): (r: (string, Option<RedisError>))
  {
    match link
    case Down(reason) => ("", Some(Io(reason)))
    case Up => if key in store then (store[key].value, None) else ("", Some(Nil))
  }

  /** The server's map after a `Set` command: updated only if the command arrived. */
  function Commit(store: map<string, Entry>, w: Write, link: Link): (s: map<string, Entry>)
  {
    if link.Up? then store[w.key := Entry(w.value, w.ttl)] else store
  }

  class Cache {
    var store: map<string, Entry>
    /** Every `Set` the client issued, in order, whether or not it arrived. */
    ghost var writes: seq<Write>

    constructor ()
      ensures store == map[] && writes == []
    {
      store := map[];
      writes := [];
    }

    method Get(key: string, link: Link) returns (value: string, err: Option<RedisError>)
      ensures link.Down? ==> value == "" && err == Some(Io(link.reason))
      ensures link.Up? && key !in store ==> value == "" && err == Some(Nil)
      ensures link.Up? && key in store ==> value == store[key].value && err == None
    {
      var r := Reply(store, key, link);
      value, err := r.0, r.1;
    }

    method Set(key: string, value: string, ttl: Duration, link: Link) returns (err: Option<RedisError>)
      modifies this
      ensures err == (if link.Up? then None else Some(Io(link.reason)))
      ensures store == Commit(old(store), Write(key, value, ttl), link)
      ensures link.Up? ==> key in store && store[key] == Entry(value, ttl)
      ensures forall k :: k != key ==> (k in store <==> k in old(store))
      ensures forall k :: k != key && k in store ==> store[k] == old(store)[k]
      ensures writes == old(writes) + [Write(key, value, ttl)]
    {
      writes := writes + [Write(key, value, ttl)];
      if link.Up? {
        store := store[key := Entry(value, ttl)];
        err := None;
      } else {
        err := Some(Io(link.reason));
      }
    }

    /** The entry's TTL has lapsed: the server forgets the key. */
    method Expire(key: string)
      modifies this
      ensures store == old(store) - {key}
      ensures writes == old(writes)
    {
      store := store - {key};
    }

    /**
     * An entry put in place from outside the service, as a test fixture primes
     * the server before the code under test reads it; it is not a `Set` the
     * service issued, so the write log is untouched.
     */
    method Preload(key: string, entry: Entry)
      modifies this
      ensures store == old(store)[key := entry]
      ensures writes == old(writes)
    {
      store := store[key := entry];
    }
  }
}
