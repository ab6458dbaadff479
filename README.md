# CacheMachine in Dafny

`CacheMachine` is a small class-level façade over a memcached client. It offers
`read`, `write`, `fetch`, `delete` and `clear`. It turns the text-protocol replies
(`STORED`, `DELETED`, …) into booleans and answers a `MemCache::MemCacheError` with
a per-operation fallback: `nil` for a read, `false` for a write or delete. It retries
a block whose `ArgumentError` comes from a class that was not loaded yet, at most once
per class name. It checks `:expires_in` before anything reaches the server, and it
logs what it does with the prefix `[CacheMachine]`.

The project has four modules:

- `Ruby` (`ruby.dfy`) covers the Ruby that the façade relies on:
  - values and their truthiness (only `nil` and `false` are falsy);
  - `to_s`, `inspect` and `is_a?(Numeric)`;
  - the options Hash for `[]` and `merge`;
  - `String#split.last` and the substring test behind `e.to_s[/undefined class|referred/]`;
  - the exceptions that cross the façade.
- `MemCache` (`memcache.dfy`) stands in for the client:
  - the protocol reply constants;
  - `Apply`, the server's normal answer to `get`, `set`, `add`, `delete` and `flush_all`;
  - a `Client` class holding the server contents, a schedule saying call by call whether
    the backend answers normally or raises, and the history of calls received.
- `CacheMachine` (`cache_machine.dfy`) holds the façade:
  - the block of each operation, as a `Plan`: the client call it makes and how it reads
    the reply;
  - `expiration` and `log_key_and_options`;
  - `operation`'s retry and fallback, as the function `OperationSpec` over a `World`
    (contents, failure schedule, call history, log);
  - `read`, `write`, `delete` and `fetch` as functions over that world;
  - the `Facade` class, whose methods do the same work step by step on the shared client.
    `Operation` contains the `retry` loop. Each method is proved equal to its function.
- `CacheMachineProperties` (`properties.dfy`) proves what the façade promises about
  those functions.

In two places the code behaves differently from what one might expect, and the model
follows the code:

- `autoloaded_classes` is a local variable of `operation`. One might expect the record of
  loaded classes to last for the whole process. In fact it survives a `retry` but not the
  end of the call, so "once per class name" holds within one operation.
- `retry` re-runs the whole method body, so `log name` is written again for every attempt.

`fetch` writes its `hit:`, `miss:` and `write (will save …)` lines whatever `:quiet`
says, because `log` itself never looks at it.

## Model

| member | source | states |
|---|---|---|
| MemCache.Apply | lib/cache_machine.rb:12 | `get` leaves the contents unchanged and reports found exactly when the key is present; every other command answers a protocol status line |
| MemCache.ApplyOtherKeys | lib/cache_machine.rb:19 | a command on one key neither adds, removes nor changes any other key |
| MemCache.SetThenGet | lib/cache_machine.rb:17-19 | `set` answers STORED and a following `get` finds the stored value |
| MemCache.AddOnlyWhenAbsent | lib/cache_machine.rb:17-20 | `add` answers STORED exactly when the key was absent, and when it was present leaves the contents unchanged |
| MemCache.DeleteThenGet | lib/cache_machine.rb:43-44 | `delete` answers DELETED exactly when the key was present; a following `get` misses |
| MemCache.FlushAllThenGet | lib/cache_machine.rb:48-50 | after `flush_all` every `get` misses |
| MemCache.Client.Perform | lib/cache_machine.rb:12 | one client call is recorded and one schedule entry spent; a scheduled failure is raised and changes nothing; otherwise contents and reply are as `Apply` says |
| CacheMachine.Expiration | lib/cache_machine.rb:78-82 | succeeds exactly when `:expires_in` is unset, falsy or Numeric (an Integer, a Float, or any object whose `is_a?(Numeric)` is true); the value is the given one when truthy, else 0; otherwise raises the `:expires_in must be a number` RuntimeError |
| CacheMachine.WritePlan | lib/cache_machine.rb:15-21 | `add` exactly under `:unless_exist`, else `set`; the value becomes its `to_s` under `:raw`; the key, raw flag and expiration are passed on; an invalid expiration fails before any call |
| CacheMachine.Retries | lib/cache_machine.rb:61-63 | the number of failures consumed by retrying never exceeds the length of the schedule |
| CacheMachine.AttemptsRetry | lib/cache_machine.rb:59-63 | one retry spends one failure, one call and one announcement, and remembers the class name; the rest of the operation is the same as one started from there |
| CacheMachine.LogKeyAndOptions | lib/cache_machine.rb:88-92 | the key is a prefix of the message; the message is the bare key exactly when the options are empty; otherwise it continues with ` (` + `options.inspect` + `)` |
| CacheMachine.Facade.Operation | lib/cache_machine.rb:58-68 | the retry loop ends in the world and outcome that `OperationSpec` describes |
| CacheMachine.Facade.Read | lib/cache_machine.rb:11-13 | `read` ends as `ReadSpec` describes |
| CacheMachine.Facade.Write | lib/cache_machine.rb:15-22 | `write` ends as `WriteSpec` describes |
| CacheMachine.Facade.Delete | lib/cache_machine.rb:41-46 | `delete` ends as `DeleteSpec` describes |
| CacheMachine.Facade.Fetch | lib/cache_machine.rb:24-39 | `fetch` ends as `FetchSpec` describes, including how many times the block ran |
| CacheMachine.Facade.ReadFound | lib/cache_machine.rb:11-13 | the corrected lookup ends as `ReadFoundSpec` describes: found value, or `Missed` on a miss or a backend error |
| CacheMachine.Facade.FetchFound | lib/cache_machine.rb:24-39 | the corrected `fetch` ends as `FetchFoundSpec` describes |
| CacheMachine.Facade.Clear | lib/cache_machine.rb:48-50 | one `flush_all` call, spending one schedule entry: it empties the server, or its scheduled failure is returned unrescued and the contents are unchanged |
| CacheMachineProperties.HealthyOperation | lib/cache_machine.rb:58-60 | with no failure pending, an operation makes its call once, logs its name once unless quiet, and answers as the server does |
| CacheMachineProperties.RetriedAreAutoloadingErrors | lib/cache_machine.rb:63 | every retried failure is an ArgumentError whose message matches `undefined class` or `referred` |
| CacheMachineProperties.RetriedNamesAreNew | lib/cache_machine.rb:62-63 | a retried class name was not in `autoloaded_classes` beforehand |
| CacheMachineProperties.RetriedNamesDistinct | lib/cache_machine.rb:62-63 | two retries never name the same class |
| CacheMachineProperties.RetryStops | lib/cache_machine.rb:63-64 | the failure that ends the retries is not an autoloading error, or names a class already looked up |
| CacheMachineProperties.RetryOncePerClassName | lib/cache_machine.rb:58-64 | starting from an empty `autoloaded_classes`, the retried failures are autoloading errors with pairwise distinct class names, and the failure that ends the retries is either another kind of error or repeats a retried name |
| CacheMachineProperties.OtherArgumentErrorRaisedAtOnce | lib/cache_machine.rb:61-64 | an ArgumentError that is not about autoloading is re-raised after one attempt |
| CacheMachineProperties.SameClassFailsTwice | lib/cache_machine.rb:62-64 | the same autoloading failure twice: two attempts, two announcements, then it is raised |
| CacheMachineProperties.MemCacheErrorGivesFallback | lib/cache_machine.rb:65-67 | a MemCacheError is answered by the fallback, with the contents unchanged and exactly one `name : MemCacheError (e): e` line logged |
| CacheMachineProperties.BackendErrorFallbacks | lib/cache_machine.rb:58-67 | on a MemCacheError, `read` gives nil and `write` and `delete` give false |
| CacheMachineProperties.LastAttemptShape | lib/cache_machine.rb:60-67 | the attempt that ends an operation spends one schedule entry and raises only the fallback or a scheduled failure that is not a MemCacheError |
| CacheMachineProperties.BackendErrorsNeverRaise | lib/cache_machine.rb:58-67 | when every scheduled failure is a MemCacheError, an operation makes its call once and never raises, whatever the schedule holds |
| CacheMachineProperties.OperationRaisesNoBackendError | lib/cache_machine.rb:58-67 | for any schedule, no MemCacheError escapes an operation whose fallback is a value |
| CacheMachineProperties.InvalidExpirationBeforeBackend | lib/cache_machine.rb:78-82 | a non-numeric `:expires_in` makes `write` and `delete` raise before any call reaches the client, leaving the contents unchanged |
| CacheMachineProperties.WriteAnswersStored | lib/cache_machine.rb:15-21 | `write` answers true exactly when the server replied STORED: always without `:unless_exist`, and only for an absent key with it |
| CacheMachineProperties.WriteUnlessExistKeepsEntry | lib/cache_machine.rb:17 | `:unless_exist` on a present key answers false and keeps the stored entry |
| CacheMachineProperties.WriteThenRead | lib/cache_machine.rb:18-19 | a written value reads back unchanged, or as its `to_s` under `:raw` |
| CacheMachineProperties.RawIntegerWrite | lib/cache_machine.rb:18 | a raw Integer is stored as decimal text that reads back as the same Integer |
| CacheMachineProperties.DeleteThenRead | lib/cache_machine.rb:41-45 | `delete` answers true exactly when the key was present, sends `expiration(options)`, and a later read gives nil |
| CacheMachineProperties.QuietlyKeeps | lib/cache_machine.rb:34 | `options.merge(:quiet => true)` sets `:quiet` and keeps every other option, including the expiration |
| CacheMachineProperties.FetchHitSkipsBlock | lib/cache_machine.rb:25-27 | a truthy cached value is returned after one read; the block does not run and nothing is written |
| CacheMachineProperties.FetchMissShape | lib/cache_machine.rb:28-37 | the miss branch runs the block exactly when there is one, lets no MemCacheError escape, and answers the block's value (nil without a block) unless the write-back raised |
| CacheMachineProperties.FetchReturnsBlockValue | lib/cache_machine.rb:24-39 | for every world and every options Hash: the block runs at most once and only when given, no MemCacheError escapes, and a fetch that ran the block and did not raise returns the block's value, whatever `write` answered |
| CacheMachineProperties.FetchMissRunsBlockOnce | lib/cache_machine.rb:24-37 | on any miss (forced, or a read answering nil or false, including the nil of a failed read), with a valid expiration and only MemCacheErrors scheduled, the block runs once and its value is returned even if the write-back failed; after the read exactly one store call is made |
| CacheMachineProperties.HealthyFetchMisses | lib/cache_machine.rb:25 | on a healthy backend, a fetch of an absent key or of a stored nil or false takes the miss branch after one `get` |
| CacheMachineProperties.FetchWriteBackFailureStillReturns | lib/cache_machine.rb:28-37 | a normal miss followed by a write-back that fails with a MemCacheError still returns the block's value, stores nothing and logs the write's error line |
| CacheMachineProperties.FetchReadFailureRunsBlock | lib/cache_machine.rb:24-37 | a read that fails with a MemCacheError counts as a miss: the block runs even if a value is cached, and its value is returned |
| CacheMachineProperties.FetchMissWithoutBlock | lib/cache_machine.rb:24-39 | a miss with no block answers nil after the one read |
| CacheMachineProperties.WriteCallsAreStores | lib/cache_machine.rb:17-19 | every call `write` makes is a `set` or an `add`, appended to the history |
| CacheMachineProperties.FetchForceSkipsRead | lib/cache_machine.rb:25-38 | under `:force` the client is never read and every call made is a store; the block runs exactly when one is given; without a block the answer is nil and nothing changes; with one, a valid expiration and only MemCacheErrors scheduled, the answer is the block's value |
| CacheMachineProperties.FetchInvalidExpirationAfterBlock | lib/cache_machine.rb:24-35 | on every miss, forced or not, a non-numeric `:expires_in` is noticed only at the write-back: the block has run once, the error is raised, and no call follows the read |
| CacheMachineProperties.FetchTwiceRunsOnce | lib/cache_machine.rb:24-39 | for a truthy value, two fetches run the block once, and the second returns what was cached |
| CacheMachineProperties.FetchFalsyValueRecomputes | lib/cache_machine.rb:25 | as written, a block answering false is stored, yet the next fetch runs the block again |
| CacheMachineProperties.FetchFoundSecondCallHits | lib/cache_machine.rb:24-39 | when the hit is decided by the found flag, the second of two fetches never runs the block, whatever the block returned |
| Ruby.DecimalRoundTrip | lib/cache_machine.rb:18 | `Integer#to_s` reads back as the same Integer |
| Ruby.DecimalStringInjective | lib/cache_machine.rb:18 | distinct Integers have distinct `to_s` |
| Ruby.MergeLookup | lib/cache_machine.rb:34 | after `merge(key => v)` the key maps to `v` and every other key is unchanged |
| Ruby.InspectOptions | lib/cache_machine.rb:90 | `Hash#inspect` is wrapped in braces and is `{}` exactly for an empty Hash |
| Ruby.LastWord | lib/cache_machine.rb:63 | `split.last` is nil exactly for an all-blank message; otherwise it is a non-empty word without whitespace |
| Ruby.LastWordIsWholeWord | lib/cache_machine.rb:63 | the word `split.last` finds is preceded by whitespace or the start, and followed only by whitespace |

## Left out

- The connection itself (lib/cache_machine.rb:70-76) is left out. Reading the Rails configuration and building a `MemCache` are outside the façade. The model starts from a `Client` that already exists and is shared.
- The real memcache-client is left out: namespacing, marshalling, key validation, server selection and the time at which entries expire. Its replies are modelled by `Apply`. Its failures are modelled by a schedule with one entry per call, saying whether that call is answered or raises.
- `method_missing` (lib/cache_machine.rb:52-54) is left out. It forwards any other call to the client unchanged, and the client's other methods are not part of this model.
- `constantize` is left out. The model keys `autoloaded_classes` by the class name rather than by the class it loads. A name that fails to load while being handled (a `NameError`) is not modelled.
- `Benchmark.ms` is left out. The time a block takes is the parameter `elapsed`, already printed the way `%.2f` prints it.
- Facade.Fetch does not model a failure of the `%` format, because the model treats each log line as a plain string. The code applies `%` after the key and options are interpolated, so a `%` in them could make the format fail or print something else.
- Facade.Fetch does not model the block raising, or running code of its own. The block is modelled by the value it yields.
- Facade.Clear answers only whether `flush_all` failed, not the client's own return value.
- The log is modelled as a list of lines, not a call on Rails' logger.
- Floats are modelled by their printed form.
- Objects are modelled by their `to_s`, their `inspect` and their answer to `is_a?(Numeric)`.
- An options Hash is modelled as a list of pairs. The list type allows a key to appear twice, which a Ruby Hash does not. For such a list, `Lookup` sees the first pair and `InspectOptions` prints both.
- Hash order is modelled as insertion order. Ruby 1.8 leaves the order of `Hash#inspect` unspecified.
- `String#inspect` escaping covers `"`, `\`, newline, carriage return and tab, not every control character.
- Concurrency is left out. Two threads sharing the connection are not modelled.

## Findings

| source | as written | input that shows it | evidently intended | confidence | as-written member | corrected member |
|---|---|---|---|---|---|---|
| lib/cache_machine.rb:25 | a fetch counts as a hit only when the read value is truthy | `fetch(k) { false }` twice on an empty cache: the block stores `false` and then runs again the second time | a stored `nil` or `false` is a hit, so a cached block runs once | not executed | CacheMachineProperties.FetchFalsyValueRecomputes | CacheMachineProperties.FetchFoundSecondCallHits |

`FetchFoundSpec` is the corrected fetch. It decides the hit by the server's found flag,
through `ReadFoundSpec`, and a backend error still counts as a miss.
`Facade.FetchFound` carries it out on the client. `Facade.Fetch` keeps the code as written.
