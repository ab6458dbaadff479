/** What the façade promises, proved about the functions that describe it. */
module CacheMachineProperties {
  import opened Ruby
  import opened MemCache
  import opened CacheMachine

  /** A backend with no failure pending. */
  predicate Healthy(w: World) {
    w.faults == []
  }

  /** With no failure pending, an operation makes its call once, logs its
      name once unless quiet, and answers as the server does. */
  lemma HealthyOperation(w: World, name: string, quiet: bool, fallback: Outcome, p: Plan)
    requires Healthy(w)
    ensures OperationSpec(w, name, quiet, fallback, Success(p)) ==
      (World(Apply(w.data, p.call).0, [], w.calls + [p.call], w.log + Announcements(name, quiet, 1)),
       Interpret(p.reading, Apply(w.data, p.call).1))
  {
    assert Repeat(p.call, 1) == [p.call];
  }

  // ---------------------------------------------------------------------
  // operation: retry at most once per class name, fallbacks, re-raise

  predicate AllTrue(h: map<string, bool>) {
    forall x | x in h :: h[x]
  }

  /** A scheduled failure that `operation` would retry if the class were new:
      an ArgumentError matching `undefined class` or `referred`. */
  predicate AutoloadingError(o: Option<Exception>) {
    o.Some? && o.value.ArgumentError? && Retryable(o.value.message)
  }

  /** The class a scheduled failure names (empty for a normal answer). */
  function FaultClass(o: Option<Exception>): string {
    if o.Some? then ClassName(o.value.message) else ""
  }

  lemma {:induction false} RetriedAreAutoloadingErrors(f: Schedule, h: map<string, bool>)
    ensures forall i | 0 <= i < Retries(f, h) :: AutoloadingError(f[i])
    decreases |f|
  {
    if f != [] && f[0].Some? && RetriesOn(f[0].value, h) {
      var h' := AutoloadedLookup(h, FaultClass(f[0])).0;
      var t := f[1..];
      RetriedAreAutoloadingErrors(t, h');
      assert Retries(f, h) == 1 + Retries(t, h');
      forall i | 0 <= i < Retries(f, h) ensures AutoloadingError(f[i]) {
        if i > 0 {
          assert f[i] == t[i - 1];
        }
      }
    }
  }

  lemma {:induction false} RetriedNamesAreNew(f: Schedule, h: map<string, bool>)
    requires AllTrue(h)
    ensures forall i | 0 <= i < Retries(f, h) :: FaultClass(f[i]) !in h
    decreases |f|
  {
    if f != [] && f[0].Some? && RetriesOn(f[0].value, h) {
      var h' := AutoloadedLookup(h, FaultClass(f[0])).0;
      RetriedNamesAreNew(f[1..], h');
      forall i | 1 <= i < Retries(f, h) ensures FaultClass(f[i]) !in h {
        assert f[i] == f[1..][i - 1];
      }
    }
  }

  lemma {:induction false} RetriedNamesDistinct(f: Schedule, h: map<string, bool>)
    requires AllTrue(h)
    ensures forall i, j | 0 <= i < j < Retries(f, h) :: FaultClass(f[i]) != FaultClass(f[j])
    decreases |f|
  {
    if f != [] && f[0].Some? && RetriesOn(f[0].value, h) {
      var name := FaultClass(f[0]);
      var h' := AutoloadedLookup(h, name).0;
      var t := f[1..];
      RetriedNamesDistinct(t, h');
      RetriedNamesAreNew(t, h');
      forall i, j | 0 <= i < j < Retries(f, h) ensures FaultClass(f[i]) != FaultClass(f[j]) {
        assert f[j] == t[j - 1];
        if i > 0 {
          assert f[i] == t[i - 1];
        } else {
          assert name in h';
        }
      }
    }
  }

  /** Some failure among the first `k` names the class `m`. */
  predicate NamedBefore(f: Schedule, k: nat, m: string)
    requires k <= |f|
  {
    exists i | 0 <= i < k :: FaultClass(f[i]) == m
  }

  /** A name seen among the first `k - 1` entries after the first is seen
      among the first `k`. */
  lemma NamedBeforeShift(f: Schedule, k: nat, m: string)
    requires 1 <= k <= |f|
    ensures NamedBefore(f[1..], k - 1, m) ==> NamedBefore(f, k, m)
  {
    if NamedBefore(f[1..], k - 1, m) {
      var i :| 0 <= i < k - 1 && FaultClass(f[1..][i]) == m;
      assert f[i + 1] == f[1..][i];
    }
  }

  lemma {:induction false} RetryStops(f: Schedule, h: map<string, bool>)
    requires AllTrue(h)
    ensures var k := Retries(f, h);
      k < |f| ==>
        || !AutoloadingError(f[k])
        || FaultClass(f[k]) in h
        || NamedBefore(f, k, FaultClass(f[k]))
    decreases |f|
  {
    var k := Retries(f, h);
    if f != [] && f[0].Some? && RetriesOn(f[0].value, h) {
      var name := FaultClass(f[0]);
      var h' := AutoloadedLookup(h, name).0;
      var t := f[1..];
      RetryStops(t, h');
      assert k == 1 + Retries(t, h');
      if k < |f| && AutoloadingError(f[k]) && FaultClass(f[k]) !in h {
        var m := FaultClass(f[k]);
        assert f[k] == t[k - 1];
        if m == name {
          assert FaultClass(f[0]) == m;
        } else {
          assert m !in h';
          NamedBeforeShift(f, k, m);
        }
      }
    }
  }

  /** `operation` retries only "undefined class"/"referred" ArgumentErrors,
      at most once per class name, and stops at the first answer that is
      normal, another failure, or names a class it has already retried. */
  lemma {:induction false} RetryOncePerClassName(f: Schedule)
    ensures var k := Retries(f, map[]);
      && (forall i | 0 <= i < k :: AutoloadingError(f[i]))
      && (forall i, j | 0 <= i < j < k :: FaultClass(f[i]) != FaultClass(f[j]))
      && (k < |f| ==>
            || !AutoloadingError(f[k])
            || exists i | 0 <= i < k :: FaultClass(f[i]) == FaultClass(f[k]))
  {
    RetriedAreAutoloadingErrors(f, map[]);
    RetriedNamesDistinct(f, map[]);
    RetryStops(f, map[]);
  }

  /** An ArgumentError that is not an autoloading failure is raised after
      a single attempt. */
  lemma OtherArgumentErrorRaisedAtOnce(w: World, name: string, quiet: bool, fallback: Outcome, p: Plan)
    requires w.faults != [] && w.faults[0].Some?
    requires w.faults[0].value.ArgumentError? && !Retryable(w.faults[0].value.message)
    ensures OperationSpec(w, name, quiet, fallback, Success(p)) ==
      (World(w.data, w.faults[1..], w.calls + [p.call], w.log + Announcements(name, quiet, 1)),
       Raised(w.faults[0].value))
  {
    assert Retries(w.faults, map[]) == 0;
    assert Repeat(p.call, 1) == [p.call];
  }

  /** The same autoloading failure twice in a row: retried once, then raised. */
  lemma SameClassFailsTwice(w: World, name: string, quiet: bool, fallback: Outcome, p: Plan)
    requires |w.faults| >= 2 && w.faults[0] == w.faults[1] && AutoloadingError(w.faults[0])
    ensures OperationSpec(w, name, quiet, fallback, Success(p)) ==
      (World(w.data, w.faults[2..], w.calls + [p.call, p.call], w.log + Announcements(name, quiet, 2)),
       Raised(w.faults[1].value))
  {
    var m := FaultClass(w.faults[0]);
    assert Retries(w.faults[1..], map[m := true]) == 0;
    assert Retries(w.faults, map[]) == 1;
    assert Repeat(p.call, 2) == [p.call, p.call];
  }

  /** A MemCacheError is answered by the operation's fallback: nothing is
      stored, exactly one error line is logged, and the failure is spent. */
  lemma MemCacheErrorGivesFallback(w: World, name: string, quiet: bool, fallback: Outcome, p: Plan)
    requires w.faults != [] && w.faults[0].Some? && w.faults[0].value.MemCacheError?
    ensures OperationSpec(w, name, quiet, fallback, Success(p)) ==
      (World(w.data, w.faults[1..], w.calls + [p.call],
             w.log + Announcements(name, quiet, 1) + [MemCacheErrorLine(name, w.faults[0].value.message)]),
       fallback)
  {
    assert Retries(w.faults, map[]) == 0;
    assert Repeat(p.call, 1) == [p.call];
  }

  /** The fallbacks of the three operations: nil for read, false for write
      and delete. */
  lemma BackendErrorFallbacks(w: World, key: string, value: Value, options: Options)
    requires w.faults != [] && w.faults[0].Some? && w.faults[0].value.MemCacheError?
    ensures ReadSpec(w, key, options).1 == Returned(Nil)
    ensures Expiration(options).Success? ==> WriteSpec(w, key, value, options).1 == Returned(Bool(false))
    ensures Expiration(options).Success? ==> DeleteSpec(w, key, options).1 == Returned(Bool(false))
    ensures ReadSpec(w, key, options).0.data == w.data
  {
    MemCacheErrorGivesFallback(w, "read", Flag(options, "quiet"), Returned(Nil), ReadPlan(key, options));
    if Expiration(options).Success? {
      MemCacheErrorGivesFallback(w, "write", Flag(options, "quiet"), Returned(Bool(false)), WritePlan(key, value, options).value);
      MemCacheErrorGivesFallback(w, "delete", Flag(options, "quiet"), Returned(Bool(false)), DeletePlan(key, options).value);
    }
  }

  /** A schedule in which every failure is a MemCacheError. */
  predicate OnlyBackendErrors(f: Schedule) {
    forall i | 0 <= i < |f| :: f[i].Some? ==> f[i].value.MemCacheError?
  }

  lemma LaterKeepsOnlyBackendErrors(f: Schedule)
    requires OnlyBackendErrors(f)
    ensures OnlyBackendErrors(Later(f))
  {
    if f != [] {
      forall i | 0 <= i < |f| - 1 ensures f[1..][i].Some? ==> f[1..][i].value.MemCacheError? {
        assert f[1..][i] == f[i + 1];
      }
    }
  }

  /** The attempt that ends an operation keeps the calls and log it is
      given, spends one entry of the schedule, and raises only a scheduled
      failure that is not a MemCacheError. */
  lemma LastAttemptShape(data: Store, pending: Schedule, calls: seq<Call>, log: seq<string>,
                         name: string, fallback: Outcome, p: Plan)
    ensures var (w', r) := LastAttempt(data, pending, calls, log, name, fallback, p);
      w'.calls == calls && w'.faults == Later(pending) &&
      (r.Raised? ==> (r == fallback || (NextFault(pending) == Some(r.error) && !r.error.MemCacheError?)))
  {
  }

  /** When every scheduled failure is a MemCacheError, an operation makes
      its call exactly once and never raises: it answers as the server
      does or with its fallback. */
  lemma BackendErrorsNeverRaise(w: World, name: string, quiet: bool, fallback: Outcome, p: Plan)
    requires OnlyBackendErrors(w.faults) && !fallback.Raised?
    ensures var (w', r) := OperationSpec(w, name, quiet, fallback, Success(p));
      !r.Raised? && w'.calls == w.calls + [p.call] && w'.faults == Later(w.faults) &&
      OnlyBackendErrors(w'.faults)
  {
    assert Retries(w.faults, map[]) == 0 by {
      if w.faults != [] && w.faults[0].Some? {
        assert w.faults[0].value.MemCacheError?;
      }
    }
    assert w.faults[0..] == w.faults;
    assert Repeat(p.call, 1) == [p.call];
    LastAttemptShape(w.data, w.faults, w.calls + [p.call], w.log + Announcements(name, quiet, 1), name, fallback, p);
    assert NextFault(w.faults).Some? ==> NextFault(w.faults).value.MemCacheError?;
    LaterKeepsOnlyBackendErrors(w.faults);
  }

  /** Whatever the schedule, no MemCacheError escapes an operation whose
      fallback is a value. */
  lemma OperationRaisesNoBackendError(w: World, name: string, quiet: bool, fallback: Outcome,
                                      plan: Result<Plan, Exception>)
    requires !fallback.Raised? && (plan.Failure? ==> !plan.error.MemCacheError?)
    ensures var r := OperationSpec(w, name, quiet, fallback, plan).1;
      r.Raised? ==> !r.error.MemCacheError?
  {
    if plan.Success? {
      var k := Retries(w.faults, map[]);
      LastAttemptShape(w.data, w.faults[k..], w.calls + Repeat(plan.value.call, k + 1),
                       w.log + Announcements(name, quiet, k + 1), name, fallback, plan.value);
    }
  }

  // ---------------------------------------------------------------------
  // expiration is checked before the backend is called

  /** A non-numeric `:expires_in` makes write and delete raise without any
      call to the client; only the operation's name is logged. */
  lemma InvalidExpirationBeforeBackend(w: World, key: string, value: Value, options: Options)
    requires Flag(options, "expires_in") && !IsNumeric(Lookup(options, "expires_in"))
    ensures var (w', r) := WriteSpec(w, key, value, options);
      r == Raised(RuntimeError(EXPIRES_IN_ERROR)) && w'.data == w.data && w'.calls == w.calls && w'.faults == w.faults
    ensures var (w', r) := DeleteSpec(w, key, options);
      r == Raised(RuntimeError(EXPIRES_IN_ERROR)) && w'.data == w.data && w'.calls == w.calls && w'.faults == w.faults
  {
  }

  // ---------------------------------------------------------------------
  // write and delete

  /** `write` answers true exactly when the server replied STORED: always
      for `set`, and for `add` only when the key was absent. */
  lemma WriteAnswersStored(w: World, key: string, value: Value, options: Options)
    requires Healthy(w) && Expiration(options).Success?
    ensures WriteSpec(w, key, value, options).1 ==
      Returned(Bool(Apply(w.data, WritePlan(key, value, options).value.call).1 == Status(STORED)))
    ensures WriteSpec(w, key, value, options).1 ==
      Returned(Bool(!Flag(options, "unless_exist") || key !in w.data))
  {
    var p := WritePlan(key, value, options).value;
    HealthyOperation(w, "write", Flag(options, "quiet"), Returned(Bool(false)), p);
  }

  /** `write` with `:unless_exist` on a present key answers false and
      leaves the stored entry alone. */
  lemma WriteUnlessExistKeepsEntry(w: World, key: string, value: Value, options: Options)
    requires Healthy(w) && Expiration(options).Success?
    requires Flag(options, "unless_exist") && key in w.data
    ensures WriteSpec(w, key, value, options).1 == Returned(Bool(false))
    ensures WriteSpec(w, key, value, options).0.data == w.data
  {
    var p := WritePlan(key, value, options).value;
    HealthyOperation(w, "write", Flag(options, "quiet"), Returned(Bool(false)), p);
  }

  /** A stored value reads back: unchanged, or as its `to_s` under `:raw`. */
  lemma WriteThenRead(w: World, key: string, value: Value, options: Options, readOptions: Options)
    requires Healthy(w) && Expiration(options).Success?
    requires Flag(options, "unless_exist") ==> key !in w.data
    ensures WriteSpec(w, key, value, options).1 == Returned(Bool(true))
    ensures ReadSpec(WriteSpec(w, key, value, options).0, key, readOptions).1 ==
      Returned(if Flag(options, "raw") then Str(ToS(value)) else value)
  {
    var p := WritePlan(key, value, options).value;
    HealthyOperation(w, "write", Flag(options, "quiet"), Returned(Bool(false)), p);
    var w' := WriteSpec(w, key, value, options).0;
    HealthyOperation(w', "read", Flag(readOptions, "quiet"), Returned(Nil), ReadPlan(key, readOptions));
  }

  /** A raw integer is stored as its decimal text, which reads back as the
      same integer (what memcached's counters rely on). */
  lemma RawIntegerWrite(w: World, key: string, n: int, options: Options, readOptions: Options)
    requires Healthy(w) && Expiration(options).Success? && Flag(options, "raw")
    requires Flag(options, "unless_exist") ==> key !in w.data
    ensures var r := ReadSpec(WriteSpec(w, key, Int(n), options).0, key, readOptions).1;
      r.Returned? && r.value.Str? && DecimalValue(r.value.s) == Some(n)
  {
    WriteThenRead(w, key, Int(n), options, readOptions);
    DecimalRoundTrip(n);
  }

  /** `delete` answers true exactly when the key was present, and a later
      read finds nothing. */
  lemma DeleteThenRead(w: World, key: string, options: Options, readOptions: Options)
    requires Healthy(w) && Expiration(options).Success?
    ensures DeleteSpec(w, key, options).1 == Returned(Bool(key in w.data))
    ensures DeleteSpec(w, key, options).0.calls == w.calls + [Delete(key, Expiration(options).value)]
    ensures ReadSpec(DeleteSpec(w, key, options).0, key, readOptions).1 == Returned(Nil)
  {
    var p := DeletePlan(key, options).value;
    HealthyOperation(w, "delete", Flag(options, "quiet"), Returned(Bool(false)), p);
    var w' := DeleteSpec(w, key, options).0;
    HealthyOperation(w', "read", Flag(readOptions, "quiet"), Returned(Nil), ReadPlan(key, readOptions));
  }

  // ---------------------------------------------------------------------
  // fetch

  lemma QuietlyKeeps(options: Options, key: string)
    requires key != "quiet"
    ensures Flag(Quietly(options), key) == Flag(options, key)
    ensures Lookup(Quietly(options), key) == Lookup(options, key)
    ensures Expiration(Quietly(options)) == Expiration(options)
    ensures Flag(Quietly(options), "quiet")
  {
    MergeLookup(options, "quiet", Bool(true), key);
    MergeLookup(options, "quiet", Bool(true), "expires_in");
  }

  /** A truthy cached value is returned by one read; the block never runs
      and nothing is written. */
  lemma FetchHitSkipsBlock(w: World, key: string, options: Options, block: Option<Value>, elapsed: string)
    requires Healthy(w) && !Flag(options, "force")
    requires key in w.data && Truthy(w.data[key].value)
    ensures var (w', r, runs) := FetchSpec(w, key, options, block, elapsed);
      r == Returned(w.data[key].value) && runs == 0 && w'.data == w.data &&
      w'.calls == w.calls + [Get(key, Flag(options, "raw"))]
  {
    QuietlyKeeps(options, "raw");
    HealthyOperation(w, "read", true, Returned(Nil), ReadPlan(key, Quietly(options)));
  }

  /** The world a fetch has reached when it turns to the block: the read's
      under a plain fetch, the original under `:force`. */
  function BeforeMiss(w: World, key: string, options: Options): World {
    if Flag(options, "force") then w else ReadSpec(w, key, Quietly(options)).0
  }

  /** A fetch takes the miss branch: it is forced, or its quiet read
      answered nil or false. */
  predicate FetchMisses(w: World, key: string, options: Options) {
    Flag(options, "force") ||
    (var r := ReadSpec(w, key, Quietly(options)).1; r.Returned? && !Truthy(r.value))
  }

  /** The miss branch runs the block exactly when there is one, lets no
      MemCacheError escape, and answers the block's value unless the
      write-back raised. */
  lemma FetchMissShape(w: World, key: string, options: Options, block: Option<Value>, elapsed: string)
    ensures var (w', r, runs) := FetchMiss(w, key, options, block, elapsed);
      runs == (if block.Some? then 1 else 0) &&
      (r.Raised? ==> !r.error.MemCacheError?) &&
      (!r.Raised? ==> r == Returned(block.GetOr(Nil)))
  {
    if block.Some? {
      var announced := w.(log := w.log + [LogLine("miss: " + LogKeyAndOptions(key, options))]);
      var quietly := Quietly(options);
      OperationRaisesNoBackendError(announced, "write", Flag(quietly, "quiet"), Returned(Bool(false)),
                                    WritePlan(key, block.value, quietly));
    }
  }

  /** For every world and every options Hash: the block runs at most once,
      no MemCacheError escapes, and a fetch that ran the block and did not
      raise returns the block's value, whatever `write` answered. */
  lemma FetchReturnsBlockValue(w: World, key: string, options: Options, block: Option<Value>, elapsed: string)
    ensures var (w', r, runs) := FetchSpec(w, key, options, block, elapsed);
      runs <= 1 && (runs == 1 ==> block.Some?) &&
      (r.Raised? ==> !r.error.MemCacheError?) &&
      (runs == 1 && !r.Raised? ==> r == Returned(block.value))
  {
    if Flag(options, "force") {
      FetchMissShape(w, key, options, block, elapsed);
    } else {
      var quietly := Quietly(options);
      var read := ReadSpec(w, key, quietly);
      OperationRaisesNoBackendError(w, "read", Flag(quietly, "quiet"), Returned(Nil), Success(ReadPlan(key, quietly)));
      if !read.1.Raised? && !(read.1.Returned? && Truthy(read.1.value)) {
        assert FetchSpec(w, key, options, block, elapsed) == FetchMiss(read.0, key, options, block, elapsed);
        FetchMissShape(read.0, key, options, block, elapsed);
      }
    }
  }

  /** On a miss, with a valid expiration and only MemCacheErrors scheduled,
      the block runs once and its value is returned, whether the read and
      the write-back were answered or failed; the calls after the read are
      exactly one store. */
  lemma FetchMissRunsBlockOnce(w: World, key: string, options: Options, v: Value, elapsed: string)
    requires Expiration(options).Success? && OnlyBackendErrors(w.faults) && FetchMisses(w, key, options)
    ensures var (w', r, runs) := FetchSpec(w, key, options, Some(v), elapsed);
      r == Returned(v) && runs == 1 &&
      w'.calls == BeforeMiss(w, key, options).calls + [WritePlan(key, v, Quietly(options)).value.call]
  {
    var quietly := Quietly(options);
    QuietlyKeeps(options, "expires_in");
    if !Flag(options, "force") {
      BackendErrorsNeverRaise(w, "read", Flag(quietly, "quiet"), Returned(Nil), ReadPlan(key, quietly));
    }
    var before := BeforeMiss(w, key, options);
    var announced := before.(log := before.log + [LogLine("miss: " + LogKeyAndOptions(key, options))]);
    BackendErrorsNeverRaise(announced, "write", Flag(quietly, "quiet"), Returned(Bool(false)),
                            WritePlan(key, v, quietly).value);
  }

  /** On a healthy backend, a fetch of an absent key, or of a stored nil or
      false, takes the miss branch. */
  lemma HealthyFetchMisses(w: World, key: string, options: Options)
    requires Healthy(w) && (key in w.data ==> !Truthy(w.data[key].value))
    ensures FetchMisses(w, key, options)
    ensures !Flag(options, "force") ==>
      BeforeMiss(w, key, options).calls == w.calls + [Get(key, Flag(options, "raw"))] &&
      BeforeMiss(w, key, options).data == w.data && Healthy(BeforeMiss(w, key, options))
  {
    QuietlyKeeps(options, "raw");
    HealthyOperation(w, "read", true, Returned(Nil), ReadPlan(key, Quietly(options)));
  }

  /** A read answered normally (a miss), then a write-back that fails with
      a MemCacheError: the block's value is still returned, nothing is
      stored, and the write's error line is logged. */
  lemma FetchWriteBackFailureStillReturns(w: World, key: string, options: Options, v: Value,
                                          elapsed: string, m: string)
    requires w.faults == [None, Some(MemCacheError(m))] && key !in w.data
    requires !Flag(options, "force") && Expiration(options).Success?
    ensures var (w', r, runs) := FetchSpec(w, key, options, Some(v), elapsed);
      r == Returned(v) && runs == 1 && w'.data == w.data && w'.faults == [] &&
      MemCacheErrorLine("write", m) in w'.log
  {
    var quietly := Quietly(options);
    QuietlyKeeps(options, "raw");
    QuietlyKeeps(options, "expires_in");
    assert Retries(w.faults, map[]) == 0;
    assert w.faults[0..] == w.faults;
    var read := ReadSpec(w, key, quietly);
    assert read.1 == Returned(Nil) && read.0.data == w.data && read.0.faults == [Some(MemCacheError(m))];
    FetchMissRunsBlockOnce(w, key, options, v, elapsed);
    var announced := read.0.(log := read.0.log + [LogLine("miss: " + LogKeyAndOptions(key, options))]);
    MemCacheErrorGivesFallback(announced, "write", Flag(quietly, "quiet"), Returned(Bool(false)),
                               WritePlan(key, v, quietly).value);
  }

  /** A read that fails with a MemCacheError counts as a miss: the block
      runs even though a truthy value is cached, and its value is returned. */
  lemma FetchReadFailureRunsBlock(w: World, key: string, options: Options, v: Value,
                                  elapsed: string, m: string)
    requires w.faults == [Some(MemCacheError(m))] && !Flag(options, "force") && Expiration(options).Success?
    ensures var (w', r, runs) := FetchSpec(w, key, options, Some(v), elapsed);
      r == Returned(v) && runs == 1 && MemCacheErrorLine("read", m) in w'.log
  {
    var quietly := Quietly(options);
    MemCacheErrorGivesFallback(w, "read", Flag(quietly, "quiet"), Returned(Nil), ReadPlan(key, quietly));
    FetchMissRunsBlockOnce(w, key, options, v, elapsed);
  }

  /** A miss without a block answers nil after the one read. */
  lemma FetchMissWithoutBlock(w: World, key: string, options: Options, elapsed: string)
    requires Healthy(w) && !Flag(options, "force")
    requires key in w.data ==> !Truthy(w.data[key].value)
    ensures FetchSpec(w, key, options, None, elapsed).1 == Returned(Nil)
    ensures FetchSpec(w, key, options, None, elapsed).2 == 0
    ensures FetchSpec(w, key, options, None, elapsed).0.calls == w.calls + [Get(key, Flag(options, "raw"))]
  {
    QuietlyKeeps(options, "raw");
    HealthyOperation(w, "read", true, Returned(Nil), ReadPlan(key, Quietly(options)));
  }

  /** Every call `write` makes is a store command, appended to the history. */
  lemma WriteCallsAreStores(w: World, key: string, v: Value, options: Options)
    ensures var w' := WriteSpec(w, key, v, options).0;
      |w'.calls| >= |w.calls| && w'.calls[..|w.calls|] == w.calls &&
      (forall i | |w.calls| <= i < |w'.calls| :: w'.calls[i].Set? || w'.calls[i].Add?)
  {
    var plan := WritePlan(key, v, options);
    var w' := WriteSpec(w, key, v, options).0;
    if plan.Success? {
      var k := Retries(w.faults, map[]);
      var stores := Repeat(plan.value.call, k + 1);
      assert w'.calls == w.calls + stores;
      forall i | |w.calls| <= i < |w'.calls| ensures w'.calls[i].Set? || w'.calls[i].Add? {
        assert w'.calls[i] == stores[i - |w.calls|];
      }
    }
  }

  /** Under `:force` the client is never read: every call made is the
      write-back, the block runs exactly when it is given, nil is the
      answer without a block, and the block's value is the answer when
      the expiration is valid and only MemCacheErrors are scheduled. */
  lemma {:induction false} FetchForceSkipsRead(w: World, key: string, options: Options, block: Option<Value>, elapsed: string)
    requires Flag(options, "force")
    ensures var (w', r, runs) := FetchSpec(w, key, options, block, elapsed);
      runs == (if block.Some? then 1 else 0) &&
      |w'.calls| >= |w.calls| && w'.calls[..|w.calls|] == w.calls &&
      (forall i | |w.calls| <= i < |w'.calls| :: w'.calls[i].Set? || w'.calls[i].Add?) &&
      (block.None? ==> r == Returned(Nil) && w' == w) &&
      (block.Some? && Expiration(options).Success? && OnlyBackendErrors(w.faults) ==> r == Returned(block.value))
  {
    if block.Some? {
      var announced := w.(log := w.log + [LogLine("miss: " + LogKeyAndOptions(key, options))]);
      WriteCallsAreStores(announced, key, block.value, Quietly(options));
      if Expiration(options).Success? && OnlyBackendErrors(w.faults) {
        FetchMissRunsBlockOnce(w, key, options, block.value, elapsed);
      }
    }
  }

  /** A non-numeric `:expires_in` is noticed only when writing back: after
      the block has run, and before any store call, on every miss. */
  lemma {:induction false} FetchInvalidExpirationAfterBlock(w: World, key: string, options: Options, v: Value, elapsed: string)
    requires Expiration(options).Failure? && FetchMisses(w, key, options)
    ensures var (w', r, runs) := FetchSpec(w, key, options, Some(v), elapsed);
      r == Raised(RuntimeError(EXPIRES_IN_ERROR)) && runs == 1 &&
      w'.calls == BeforeMiss(w, key, options).calls && w'.data == BeforeMiss(w, key, options).data
  {
    QuietlyKeeps(options, "expires_in");
  }

  /** As written, a block whose value is truthy (or any value under `:raw`,
      which is stored as a String) is run once over two fetches. */
  lemma FetchTwiceRunsOnce(w: World, key: string, options: Options, v: Value, elapsed: string)
    requires Healthy(w) && !Flag(options, "force") && Expiration(options).Success?
    requires key !in w.data && (Truthy(v) || Flag(options, "raw"))
    ensures var first := FetchSpec(w, key, options, Some(v), elapsed);
      var second := FetchSpec(first.0, key, options, Some(v), elapsed);
      first.2 == 1 && second.2 == 0 && first.1 == Returned(v) &&
      second.1 == Returned(if Flag(options, "raw") then Str(ToS(v)) else v)
  {
    QuietlyKeeps(options, "raw");
    QuietlyKeeps(options, "unless_exist");
    HealthyFetchMisses(w, key, options);
    FetchMissRunsBlockOnce(w, key, options, v, elapsed);
    var read := ReadSpec(w, key, Quietly(options));
    HealthyOperation(w, "read", true, Returned(Nil), ReadPlan(key, Quietly(options)));
    var announced := read.0.(log := read.0.log + [LogLine("miss: " + LogKeyAndOptions(key, options))]);
    HealthyOperation(announced, "write", true, Returned(Bool(false)), WritePlan(key, v, Quietly(options)).value);
    var first := FetchSpec(w, key, options, Some(v), elapsed);
    assert key in first.0.data && first.0.data[key].value == (if Flag(options, "raw") then Str(ToS(v)) else v);
    FetchHitSkipsBlock(first.0, key, options, Some(v), elapsed);
  }

  /** The source's truthiness test: a block answering false is written
      back and run again by the next fetch. */
  lemma FetchFalsyValueRecomputes(w: World, key: string, elapsed: string)
    requires Healthy(w) && key !in w.data
    ensures var first := FetchSpec(w, key, [], Some(Bool(false)), elapsed);
      var second := FetchSpec(first.0, key, [], Some(Bool(false)), elapsed);
      first.2 == 1 && second.2 == 1 && key in first.0.data && first.0.data[key].value == Bool(false)
  {
    HealthyFetchMisses(w, key, []);
    FetchMissRunsBlockOnce(w, key, [], Bool(false), elapsed);
    var first := FetchSpec(w, key, [], Some(Bool(false)), elapsed);
    QuietlyKeeps([], "raw");
    QuietlyKeeps([], "unless_exist");
    var read := ReadSpec(w, key, Quietly([]));
    HealthyOperation(w, "read", true, Returned(Nil), ReadPlan(key, Quietly([])));
    var announced := read.0.(log := read.0.log + [LogLine("miss: " + LogKeyAndOptions(key, []))]);
    HealthyOperation(announced, "write", true, Returned(Bool(false)), WritePlan(key, Bool(false), Quietly([])).value);
    assert key in first.0.data && first.0.data[key].value == Bool(false);
    assert Healthy(first.0);
    HealthyFetchMisses(first.0, key, []);
    FetchMissRunsBlockOnce(first.0, key, [], Bool(false), elapsed);
  }

  /** With the hit decided by the found flag, the second of two fetches
      never runs the block, whatever value the block produced. */
  lemma FetchFoundSecondCallHits(w: World, key: string, options: Options, v: Value, elapsed: string)
    requires Healthy(w) && !Flag(options, "force") && Expiration(options).Success?
    ensures var first := FetchFoundSpec(w, key, options, Some(v), elapsed);
      var second := FetchFoundSpec(first.0, key, options, Some(v), elapsed);
      first.2 <= 1 && second.2 == 0 && second.1.Returned? &&
      (key !in w.data ==> first.2 == 1 && second.1 == Returned(if Flag(options, "raw") then Str(ToS(v)) else v))
  {
    QuietlyKeeps(options, "raw");
    QuietlyKeeps(options, "unless_exist");
    var tagged := Plan(Get(key, Flag(options, "raw")), AsTagged);
    HealthyOperation(w, "read", true, Missed, tagged);
    var read := ReadFoundSpec(w, key, Quietly(options));
    var first := FetchFoundSpec(w, key, options, Some(v), elapsed);
    if key !in w.data {
      var announced := read.0.(log := read.0.log + [LogLine("miss: " + LogKeyAndOptions(key, options))]);
      HealthyOperation(announced, "write", true, Returned(Bool(false)), WritePlan(key, v, Quietly(options)).value);
      assert key in first.0.data && first.0.data[key].value == (if Flag(options, "raw") then Str(ToS(v)) else v);
    } else {
      assert first.0.data == w.data;
    }
    assert Healthy(first.0);
    HealthyOperation(first.0, "read", true, Missed, tagged);
  }
}
