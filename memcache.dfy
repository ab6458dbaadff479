/** The memcached client the façade wraps, seen only through the calls
    the façade makes: `get`, `set`, `add`, `delete` and `flush_all`, with
    the replies of the memcached text protocol's storage and deletion
    commands. The client's real behaviour is not visible; this module
    stands in for it with a map from keys to entries, a schedule saying
    which of the coming calls the backend fails and with what, and the
    history of calls it received. */
module MemCache {
  import opened Ruby

  /** Replies of the text protocol, as `CacheMachine::Response` names them. */
  const STORED: string := "STORED\r\n"
  const NOT_STORED: string := "NOT_STORED\r\n"
  const EXISTS: string := "EXISTS\r\n"
  const NOT_FOUND: string := "NOT_FOUND\r\n"
  const DELETED: string := "DELETED\r\n"
  const OK: string := "OK\r\n"

  /** What a storage command leaves behind for a key. */
  datatype Entry = Entry(value: Value, expiry: Value, raw: bool)

  type Store = map<string, Entry>

  /** One call received by the client, with its arguments. */
  datatype Call =
    | Get(key: string, raw: bool)
    | Set(key: string, value: Value, expiry: Value, raw: bool)
    | Add(key: string, value: Value, expiry: Value, raw: bool)
    | Delete(key: string, expiry: Value)
    | FlushAll

  /** A normal answer: a protocol status line, or the result of a lookup
      (`found` is what the server reports; the Ruby client's `get` hands
      back only `value`, which is nil on a miss). */
  datatype Reply = Status(text: string) | Fetched(found: bool, value: Value)

  /** The outcome of one call: an answer, or the exception the client raises. */
  datatype Response = Ok(reply: Reply) | Err(error: Exception)

  /** A protocol status line of the storage and deletion commands. */
  predicate IsStatusLine(text: string) {
    text == STORED || text == NOT_STORED || text == DELETED || text == NOT_FOUND || text == OK
  }

  /** The server's normal behaviour for one call: the new contents and the reply. */
  function Apply(data: Store, c: Call): (r: (Store, Reply))
    ensures c.Get? ==> r.0 == data && r.1.Fetched?
    ensures c.Get? ==> (r.1.found <==> c.key in data)
    ensures !c.Get? ==> r.1.Status? && IsStatusLine(r.1.text)
  {
    match c
    case Get(key, _) =>
      if key in data then (data, Fetched(true, data[key].value)) else (data, Fetched(false, Nil))
    case Set(key, value, expiry, raw) =>
      (data[key := Entry(value, expiry, raw)], Status(STORED))
    case Add(key, value, expiry, raw) =>
      if key in data then (data, Status(NOT_STORED))
      else (data[key := Entry(value, expiry, raw)], Status(STORED))
    case Delete(key, _) =>
      if key in data then (data - {key}, Status(DELETED)) else (data, Status(NOT_FOUND))
    case FlushAll =>
      (map[], Status(OK))
  }

  /** A command on one key leaves every other key as it was. */
  lemma ApplyOtherKeys(data: Store, c: Call, other: string)
    requires !c.FlushAll? && other != c.key
    ensures other in Apply(data, c).0 <==> other in data
    ensures other in data ==> Apply(data, c).0[other] == data[other]
  {
  }

  /** `set` always stores, and `get` then finds what it stored. */
  lemma SetThenGet(data: Store, key: string, value: Value, expiry: Value, raw: bool, raw': bool)
    ensures Apply(data, Set(key, value, expiry, raw)).1 == Status(STORED)
    ensures Apply(Apply(data, Set(key, value, expiry, raw)).0, Get(key, raw')).1 == Fetched(true, value)
  {
  }

  /** `add` stores exactly when the key is absent, and otherwise changes nothing. */
  lemma AddOnlyWhenAbsent(data: Store, key: string, value: Value, expiry: Value, raw: bool)
    ensures Apply(data, Add(key, value, expiry, raw)).1 == Status(if key in data then NOT_STORED else STORED)
    ensures key in data ==> Apply(data, Add(key, value, expiry, raw)).0 == data
    ensures key !in data ==> Apply(Apply(data, Add(key, value, expiry, raw)).0, Get(key, raw)).1 == Fetched(true, value)
  {
  }

  /** `delete` reports DELETED exactly when the key was present, and a later `get` misses. */
  lemma DeleteThenGet(data: Store, key: string, expiry: Value, raw: bool)
    ensures Apply(data, Delete(key, expiry)).1 == Status(if key in data then DELETED else NOT_FOUND)
    ensures Apply(Apply(data, Delete(key, expiry)).0, Get(key, raw)).1 == Fetched(false, Nil)
  {
  }

  /** After `flush_all` every `get` misses. */
  lemma FlushAllThenGet(data: Store, key: string, raw: bool)
    ensures Apply(Apply(data, FlushAll).0, Get(key, raw)).1 == Fetched(false, Nil)
  {
  }

  /** What the backend will do with the coming calls, one entry per call
      in order: `Some(e)` raises `e`, `None` answers normally. Calls past
      the end of the schedule are answered normally. */
  type Schedule = seq<Option<Exception>>

  /** What the next call will meet. */
  function NextFault(f: Schedule): Option<Exception> {
    if f == [] then None else f[0]
  }

  /** The schedule once the next call has been made. */
  function Later(f: Schedule): (r: Schedule)
    ensures |r| == if f == [] then 0 else |f| - 1
  {
    if f == [] then [] else f[1..]
  }

  /** The client object the façade holds on to. */
  class Client {
    /** What the server holds. */
    var data: Store
    /** How the backend will answer the coming calls. */
    var faults: Schedule
    /** Every call received so far, in order. */
    var calls: seq<Call>

    constructor (data: Store, faults: Schedule)
      ensures this.data == data && this.faults == faults && calls == []
    {
      this.data := data;
      this.faults := faults;
      calls := [];
    }

    /** Carries out one call, the way `connection.send(method, ...)` or a
        direct `connection.get`/`delete`/`flush_all` does: a scheduled
        failure is raised and changes nothing; otherwise the server
        answers as `Apply` says. */
    method Perform(c: Call) returns (r: Response)
      modifies this
      ensures calls == old(calls) + [c]
      ensures faults == Later(old(faults))
      ensures NextFault(old(faults)).Some? ==>
        r == Err(NextFault(old(faults)).value) && data == old(data)
      ensures NextFault(old(faults)).None? ==>
        r == Ok(Apply(old(data), c).1) && data == Apply(old(data), c).0
    {
      calls := calls + [c];
      var next := NextFault(faults);
      faults := Later(faults);
      match next {
        case Some(e) =>
          r := Err(e);
        case None =>
          var answer := Apply(data, c);
          data := answer.0;
          r := Ok(answer.1);
      }
    }
  }
}
