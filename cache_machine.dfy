/** The `CacheMachine` façade: read, write, delete and fetch-through over
    a memcached client, translating protocol replies into booleans,
    turning backend errors into per-operation fallbacks, retrying an
    autoloading failure once per class name, and logging what it does.

    Each operation is first described as a function over `World` (the
    client's contents, its pending failures, the calls it received, and
    the log); the `Facade` class then does the same thing step by step
    on the shared client and is proved to agree with that description. */
module CacheMachine {
  import opened Ruby
  import opened MemCache

  /** What an operation hands back: a value, the explicit miss of the
      tagged read (used only by the corrected fetch), or an exception
      that propagates to the caller. */
  datatype Outcome = Returned(value: Value) | Missed | Raised(error: Exception)

  /** How the block of an operation turns the client's reply into a result. */
  datatype Reading =
    | AsValue    // `connection.get(...)`: the value, nil on a miss
    | AsTagged   // a lookup that keeps the server's found flag
    | IsStored   // `response == Response::STORED`
    | IsDeleted  // `response == Response::DELETED`

  /** The block an operation runs: the client call it makes and how it
      reads the reply. */
  datatype Plan = Plan(call: Call, reading: Reading)

  function Interpret(reading: Reading, reply: Reply): (r: Outcome)
    ensures reading == IsStored ==> r == Returned(Bool(reply == Status(STORED)))
    ensures reading == IsDeleted ==> r == Returned(Bool(reply == Status(DELETED)))
    ensures reading == AsValue && reply.Fetched? ==> r == Returned(reply.value)
    ensures reading == AsTagged && reply.Fetched? ==>
      r == if reply.found then Returned(reply.value) else Missed
  {
    match reading
    case AsValue =>
      if reply.Fetched? then Returned(reply.value) else Returned(Str(reply.text))
    case AsTagged =>
      if reply.Fetched? then (if reply.found then Returned(reply.value) else Missed)
      else Returned(Str(reply.text))
    case IsStored => Returned(Bool(reply == Status(STORED)))
    case IsDeleted => Returned(Bool(reply == Status(DELETED)))
  }

  // ---------------------------------------------------------------------
  // expiration and the blocks of read, write and delete

  const EXPIRES_IN_ERROR: string := ":expires_in must be a number"

  /** `options[:expires_in] || 0`, which must be Numeric. */
  function Expiration(options: Options): (r: Result<Value, Exception>)
    ensures r.Success? <==> !Flag(options, "expires_in") || IsNumeric(Lookup(options, "expires_in"))
    ensures r.Success? ==> IsNumeric(r.value)
    ensures r.Success? && Flag(options, "expires_in") ==> r.value == Lookup(options, "expires_in")
    ensures r.Success? && !Flag(options, "expires_in") ==> r.value == Int(0)
    ensures r.Failure? ==> r.error == RuntimeError(EXPIRES_IN_ERROR)
  {
    var given := Lookup(options, "expires_in");
    var expiresIn := if Truthy(given) then given else Int(0);
    if IsNumeric(expiresIn) then Success(expiresIn) else Failure(RuntimeError(EXPIRES_IN_ERROR))
  }

  /** The block of `read`: `connection.get(key, options[:raw])`. */
  function ReadPlan(key: string, options: Options): Plan {
    Plan(Get(key, Flag(options, "raw")), AsValue)
  }

  /** The block of `write`: chooses `add` or `set`, coerces the value when
      raw, and computes the expiration before anything is sent. */
  function WritePlan(key: string, value: Value, options: Options): (r: Result<Plan, Exception>)
    ensures r.Failure? <==> Expiration(options).Failure?
    ensures r.Failure? ==> r.error == Expiration(options).error
    ensures r.Success? ==> r.value.reading == IsStored
    ensures r.Success? ==> (r.value.call.Set? || r.value.call.Add?)
    ensures r.Success? ==> (r.value.call.Add? <==> Flag(options, "unless_exist"))
    ensures r.Success? ==> r.value.call.key == key && r.value.call.raw == Flag(options, "raw")
    ensures r.Success? ==> r.value.call.expiry == Expiration(options).value
    ensures r.Success? && Flag(options, "raw") ==> r.value.call.value == Str(ToS(value))
    ensures r.Success? && !Flag(options, "raw") ==> r.value.call.value == value
  {
    var raw := Flag(options, "raw");
    var sent := if raw then Str(ToS(value)) else value;
    match Expiration(options)
    case Failure(e) => Failure(e)
    case Success(expiry) =>
      var call := if Flag(options, "unless_exist") then Add(key, sent, expiry, raw)
                  else Set(key, sent, expiry, raw);
      Success(Plan(call, IsStored))
  }

  /** The block of `delete`: `connection.delete(key, expiration(options))`. */
  function DeletePlan(key: string, options: Options): (r: Result<Plan, Exception>)
    ensures r.Failure? <==> Expiration(options).Failure?
    ensures r.Failure? ==> r.error == Expiration(options).error
    ensures r.Success? ==> r.value == Plan(Delete(key, Expiration(options).value), IsDeleted)
  {
    match Expiration(options)
    case Failure(e) => Failure(e)
    case Success(expiry) => Success(Plan(Delete(key, expiry), IsDeleted))
  }

  // ---------------------------------------------------------------------
  // the retry of `operation`

  /** `e.to_s[/undefined class|referred/]` */
  predicate Retryable(message: string) {
    Contains(message, "undefined class") || Contains(message, "referred")
  }

  /** `e.to_s.split.last`, the name of the class that failed to load. */
  function ClassName(message: string): string {
    LastWord(message).GetOr("")
  }

  /** `autoloaded_classes[name]` on `Hash.new { |hash, key| hash[key] = true; false }`:
      the new Hash and the value read. */
  function AutoloadedLookup(h: map<string, bool>, name: string): (map<string, bool>, bool) {
    if name in h then (h, h[name]) else (h[name := true], false)
  }

  /** Whether an exception raised by the block makes `operation` retry,
      given the names looked up so far. */
  predicate RetriesOn(e: Exception, h: map<string, bool>) {
    e.ArgumentError? && Retryable(e.message) && !AutoloadedLookup(h, ClassName(e.message)).1
  }

  /** How many of the pending failures `operation` consumes by retrying. */
  function Retries(faults: Schedule, h: map<string, bool>): (k: nat)
    ensures k <= |faults|
    decreases |faults|
  {
    if faults != [] && faults[0].Some? && RetriesOn(faults[0].value, h) then
      1 + Retries(faults[1..], AutoloadedLookup(h, ClassName(faults[0].value.message)).0)
    else 0
  }

  // ---------------------------------------------------------------------
  // the façade as functions over the world it acts on

  /** The client's contents, its failure schedule, the calls it received
      and the lines written to the log. */
  datatype World = World(data: Store, faults: Schedule, calls: seq<Call>, log: seq<string>)

  /** `log(msg)` */
  function LogLine(msg: string): string {
    "[CacheMachine] " + msg
  }

  function Repeat<T>(x: T, n: nat): (s: seq<T>)
    ensures |s| == n && forall i | 0 <= i < n :: s[i] == x
  {
    if n == 0 then [] else Repeat(x, n - 1) + [x]
  }

  /** `log name unless quiet`, once for each of `n` attempts. */
  function Announcements(name: string, quiet: bool, n: nat): seq<string> {
    if quiet then [] else Repeat(LogLine(name), n)
  }

  function MemCacheErrorLine(name: string, message: string): string {
    LogLine(name + " : MemCacheError (" + message + "): " + message)
  }

  /** The attempts of `operation` once its block is known to reach the
      client, given the class names looked up so far. Every attempt logs
      the name (unless quiet) and makes the plan's call; the first `k`
      scheduled failures are retried autoloading errors; then the call
      either succeeds, or fails with a MemCacheError (logged, answered by
      the fallback), or with anything else (raised). */
  function AttemptsSpec(w: World, name: string, quiet: bool, fallback: Outcome, p: Plan,
                        h: map<string, bool>): (World, Outcome)
  {
    var k := Retries(w.faults, h);
    LastAttempt(w.data, w.faults[k..], w.calls + Repeat(p.call, k + 1),
                w.log + Announcements(name, quiet, k + 1), name, fallback, p)
  }

  /** The attempt that ends `operation`, with `pending` the failures left
      after the retries and `calls`/`log` already recording every attempt. */
  function LastAttempt(data: Store, pending: Schedule, calls: seq<Call>, log: seq<string>,
                       name: string, fallback: Outcome, p: Plan): (World, Outcome)
  {
    match NextFault(pending)
    case None =>
      var next := Apply(data, p.call);
      (World(next.0, Later(pending), calls, log), Interpret(p.reading, next.1))
    case Some(e) =>
      if e.MemCacheError? then
        (World(data, Later(pending), calls, log + [MemCacheErrorLine(name, e.message)]), fallback)
      else
        (World(data, Later(pending), calls, log), Raised(e))
  }

  /** `operation(name, quiet, fallback) { plan }`. A block that fails
      before calling the client (an invalid expiration) is raised at once,
      after the name is logged; otherwise the attempts start with an empty
      `autoloaded_classes`. */
  function OperationSpec(w: World, name: string, quiet: bool, fallback: Outcome,
                         plan: Result<Plan, Exception>): (World, Outcome)
  {
    match plan
    case Failure(e) => (w.(log := w.log + Announcements(name, quiet, 1)), Raised(e))
    case Success(p) => AttemptsSpec(w, name, quiet, fallback, p, map[])
  }

  lemma RepeatCons<T>(x: T, n: nat)
    ensures Repeat(x, n + 1) == [x] + Repeat(x, n)
  {
    assert Repeat(x, n + 1) == [x] + Repeat(x, n);
  }

  lemma AnnouncementsCons(name: string, quiet: bool, n: nat)
    ensures Announcements(name, quiet, n + 1) == Announcements(name, quiet, 1) + Announcements(name, quiet, n)
  {
    RepeatCons(LogLine(name), n);
    assert Repeat(LogLine(name), 1) == [LogLine(name)];
  }

  /** One retried attempt: the first pending failure is consumed, one
      call and one announcement are recorded, and the rest is as if the
      operation had started there with the name remembered. */
  lemma AttemptsRetry(w: World, name: string, quiet: bool, fallback: Outcome, p: Plan,
                      h: map<string, bool>)
    requires w.faults != [] && w.faults[0].Some? && RetriesOn(w.faults[0].value, h)
    ensures AttemptsSpec(w, name, quiet, fallback, p, h) ==
      AttemptsSpec(World(w.data, w.faults[1..], w.calls + [p.call], w.log + Announcements(name, quiet, 1)),
                   name, quiet, fallback, p, AutoloadedLookup(h, ClassName(w.faults[0].value.message)).0)
  {
    var h' := AutoloadedLookup(h, ClassName(w.faults[0].value.message)).0;
    var w' := World(w.data, w.faults[1..], w.calls + [p.call], w.log + Announcements(name, quiet, 1));
    var k' := Retries(w'.faults, h');
    assert Retries(w.faults, h) == k' + 1;
    RepeatCons(p.call, k' + 1);
    assert w.calls + Repeat(p.call, k' + 2) == w'.calls + Repeat(p.call, k' + 1);
    AnnouncementsCons(name, quiet, k' + 1);
    assert w.log + Announcements(name, quiet, k' + 2) == w'.log + Announcements(name, quiet, k' + 1);
    assert w.faults[k' + 1..] == w'.faults[k'..];
  }

  /** `read(key, options)`: nil on a backend error. */
  function ReadSpec(w: World, key: string, options: Options): (World, Outcome) {
    OperationSpec(w, "read", Flag(options, "quiet"), Returned(Nil), Success(ReadPlan(key, options)))
  }

  /** `write(key, value, options)`: false on a backend error. */
  function WriteSpec(w: World, key: string, value: Value, options: Options): (World, Outcome) {
    OperationSpec(w, "write", Flag(options, "quiet"), Returned(Bool(false)), WritePlan(key, value, options))
  }

  /** `delete(key, options)`: false on a backend error. */
  function DeleteSpec(w: World, key: string, options: Options): (World, Outcome) {
    OperationSpec(w, "delete", Flag(options, "quiet"), Returned(Bool(false)), DeletePlan(key, options))
  }

  /** `log_key_and_options(key, options)`: a copy of the key, followed by
      the inspected options when there are any. */
  function LogKeyAndOptions(key: string, options: Options): (r: string)
    ensures key <= r
    ensures r == key <==> options == []
    ensures options != [] ==> r[|key|..] == " (" + InspectOptions(options) + ")"
  {
    if options == [] then key
    else
      var suffix := " (" + InspectOptions(options) + ")";
      assert (key + suffix)[..|key|] == key && (key + suffix)[|key|..] == suffix;
      key + suffix
  }

  /** `options.merge(:quiet => true)` */
  function Quietly(options: Options): Options {
    Merge(options, "quiet", Bool(true))
  }

  /** The miss branch of `fetch`: without a block the answer is nil;
      with one, the block runs once, its value is written back quietly
      and returned whatever the write answered. */
  function FetchMiss(w: World, key: string, options: Options, block: Option<Value>,
                     elapsed: string): (World, Outcome, nat)
  {
    match block
    case None => (w, Returned(Nil), 0)
    case Some(v) =>
      var announced := w.(log := w.log + [LogLine("miss: " + LogKeyAndOptions(key, options))]);
      var written := WriteSpec(announced, key, v, Quietly(options));
      if written.1.Raised? then (written.0, written.1, 1)
      else
        var line := LogLine("write (will save " + elapsed + "ms): " + LogKeyAndOptions(key, options));
        (written.0.(log := written.0.log + [line]), Returned(v), 1)
  }

  /** `fetch(key, options) { block }` as written: unless forced, a quiet
      read whose value counts as a hit only when it is truthy. The third
      component is how many times the block ran; `elapsed` is the time
      the block took, as printed. */
  function FetchSpec(w: World, key: string, options: Options, block: Option<Value>,
                     elapsed: string): (World, Outcome, nat)
  {
    if Flag(options, "force") then FetchMiss(w, key, options, block, elapsed)
    else
      var read := ReadSpec(w, key, Quietly(options));
      if read.1.Raised? then (read.0, read.1, 0)
      else if read.1.Returned? && Truthy(read.1.value) then
        (read.0.(log := read.0.log + [LogLine("hit: " + LogKeyAndOptions(key, options))]), read.1, 0)
      else FetchMiss(read.0, key, options, block, elapsed)
  }

  /** A read that keeps the server's found flag, answering `Missed` on a
      miss and on a backend error. */
  function ReadFoundSpec(w: World, key: string, options: Options): (World, Outcome) {
    OperationSpec(w, "read", Flag(options, "quiet"), Missed, Success(Plan(Get(key, Flag(options, "raw")), AsTagged)))
  }

  /** `fetch` with the hit decided by the found flag instead of truthiness,
      so that a stored nil or false is a hit. */
  function FetchFoundSpec(w: World, key: string, options: Options, block: Option<Value>,
                          elapsed: string): (World, Outcome, nat)
  {
    if Flag(options, "force") then FetchMiss(w, key, options, block, elapsed)
    else
      var read := ReadFoundSpec(w, key, Quietly(options));
      if read.1.Raised? then (read.0, read.1, 0)
      else if read.1.Returned? then
        (read.0.(log := read.0.log + [LogLine("hit: " + LogKeyAndOptions(key, options))]), read.1, 0)
      else FetchMiss(read.0, key, options, block, elapsed)
  }

  // ---------------------------------------------------------------------
  // the façade itself

  /** The façade's class-level state: the memoized connection and the log. */
  class Facade {
    const conn: Client
    var log: seq<string>

    constructor (conn: Client)
      ensures this.conn == conn && log == []
    {
      this.conn := conn;
      log := [];
    }

    ghost function State(): World
      reads this, conn
    {
      World(conn.data, conn.faults, conn.calls, log)
    }

    /** `operation(name, quiet, fallback) { plan }`, with its `retry` loop. */
    method Operation(name: string, quiet: bool, fallback: Outcome, plan: Result<Plan, Exception>)
      returns (r: Outcome)
      modifies this, conn
      ensures (State(), r) == OperationSpec(old(State()), name, quiet, fallback, plan)
    {
      if plan.Failure? {
        assert Announcements(name, quiet, 1) == if quiet then [] else [LogLine(name)];
        if !quiet { log := log + [LogLine(name)]; }
        assert conn.data == old(conn.data) && conn.faults == old(conn.faults) && conn.calls == old(conn.calls);
        assert State() == old(State()).(log := old(State()).log + Announcements(name, quiet, 1));
        return Raised(plan.error);
      }
      var p := plan.value;
      var autoloaded: map<string, bool> := map[];
      while true
        invariant AttemptsSpec(old(State()), name, quiet, fallback, p, map[]) ==
                  AttemptsSpec(State(), name, quiet, fallback, p, autoloaded)
        decreases |conn.faults|
      {
        ghost var before := State();
        if !quiet { log := log + [LogLine(name)]; }
        assert log == before.log + Announcements(name, quiet, 1);
        var response := conn.Perform(p.call);
        assert conn.calls == before.calls + Repeat(p.call, 1);
        if response.Ok? {
          return Interpret(p.reading, response.reply);
        }
        var e := response.error;
        assert before.faults != [] && before.faults[0] == Some(e) && conn.faults == before.faults[1..];
        if RetriesOn(e, autoloaded) {
          // `retry`: the name is now recorded in `autoloaded_classes`
          AttemptsRetry(before, name, quiet, fallback, p, autoloaded);
          autoloaded := AutoloadedLookup(autoloaded, ClassName(e.message)).0;
          continue;
        }
        assert Retries(before.faults, autoloaded) == 0;
        if e.MemCacheError? {
          log := log + [MemCacheErrorLine(name, e.message)];
          return fallback;
        }
        return Raised(e);
      }
    }

    method Read(key: string, options: Options) returns (r: Outcome)
      modifies this, conn
      ensures (State(), r) == ReadSpec(old(State()), key, options)
    {
      r := Operation("read", Flag(options, "quiet"), Returned(Nil), Success(ReadPlan(key, options)));
    }

    method Write(key: string, value: Value, options: Options) returns (r: Outcome)
      modifies this, conn
      ensures (State(), r) == WriteSpec(old(State()), key, value, options)
    {
      r := Operation("write", Flag(options, "quiet"), Returned(Bool(false)), WritePlan(key, value, options));
    }

    method Delete(key: string, options: Options) returns (r: Outcome)
      modifies this, conn
      ensures (State(), r) == DeleteSpec(old(State()), key, options)
    {
      r := Operation("delete", Flag(options, "quiet"), Returned(Bool(false)), DeletePlan(key, options));
    }

    /** `fetch(key, options) { block }`; `runs` counts the runs of the block. */
    method Fetch(key: string, options: Options, block: Option<Value>, elapsed: string)
      returns (r: Outcome, runs: nat)
      modifies this, conn
      ensures (State(), r, runs) == FetchSpec(old(State()), key, options, block, elapsed)
    {
      runs := 0;
      if !Flag(options, "force") {
        r := Read(key, Quietly(options));
        if r.Raised? {
          return;
        }
        if r.Returned? && Truthy(r.value) {
          log := log + [LogLine("hit: " + LogKeyAndOptions(key, options))];
          return;
        }
      }
      match block {
        case None =>
          r := Returned(Nil);
        case Some(v) =>
          log := log + [LogLine("miss: " + LogKeyAndOptions(key, options))];
          runs := 1;
          var written := Write(key, v, Quietly(options));
          if written.Raised? {
            r := written;
            return;
          }
          log := log + [LogLine("write (will save " + elapsed + "ms): " + LogKeyAndOptions(key, options))];
          r := Returned(v);
      }
    }

    /** The corrected lookup: a read that keeps the server's found flag. */
    method ReadFound(key: string, options: Options) returns (r: Outcome)
      modifies this, conn
      ensures (State(), r) == ReadFoundSpec(old(State()), key, options)
    {
      r := Operation("read", Flag(options, "quiet"), Missed, Success(Plan(Get(key, Flag(options, "raw")), AsTagged)));
    }

    /** The corrected `fetch`: a stored nil or false is a hit. */
    method FetchFound(key: string, options: Options, block: Option<Value>, elapsed: string)
      returns (r: Outcome, runs: nat)
      modifies this, conn
      ensures (State(), r, runs) == FetchFoundSpec(old(State()), key, options, block, elapsed)
    {
      runs := 0;
      if !Flag(options, "force") {
        r := ReadFound(key, Quietly(options));
        if r.Raised? {
          return;
        }
        if r.Returned? {
          log := log + [LogLine("hit: " + LogKeyAndOptions(key, options))];
          return;
        }
      }
      match block {
        case None =>
          r := Returned(Nil);
        case Some(v) =>
          log := log + [LogLine("miss: " + LogKeyAndOptions(key, options))];
          runs := 1;
          var written := Write(key, v, Quietly(options));
          if written.Raised? {
            r := written;
            return;
          }
          log := log + [LogLine("write (will save " + elapsed + "ms): " + LogKeyAndOptions(key, options))];
          r := Returned(v);
      }
    }

    /** `clear`: `connection.flush_all`, whose failure is not rescued. */
    method Clear() returns (failure: Option<Exception>)
      modifies conn
      ensures conn.calls == old(conn.calls) + [FlushAll]
      ensures conn.faults == Later(old(conn.faults))
      ensures failure == NextFault(old(conn.faults))
      ensures failure.None? ==> conn.data == map[]
      ensures failure.Some? ==> conn.data == old(conn.data)
    {
      var response := conn.Perform(FlushAll);
      failure := if response.Err? then Some(response.error) else None;
    }
  }
}
