/**
 * The lazily initialised server state of crates/sdk-core/src/state.rs.
 *
 * A `ServerState` holds the configuration, the metrics registry and an `Arc` of the
 * connector state: a once-cell together with the setup whose `try_init_state` fills it.
 * Clones copy the configuration and share the `Arc`, so every clone sees one cell; here
 * the `Arc` is a shared reference to one `ConnectorState` object.
 *
 * `try_init_state` is a function parameter. Its outcome depends on the configuration, the
 * registry and the world at the time of the call (`Env`: the network, the database, ...),
 * which each call to `State` passes in, so that a failure can be transient.
 */
module LazyState {
  import opened Wrappers

  /** `prometheus::Registry`: clones share one registry, so it is a reference. */
  class Registry {
    constructor () {}
  }

  /** `ConnectorState` (state.rs:18-21): the once-cell and the setup that fills it. */
  class ConnectorState<C, S, Env, E> {
    var cell: Option<S>
    const initState: (C, Registry, Env) -> Result<S, E>
    /** How many times `try_init_state` has been called. */
    ghost var attempts: nat

    constructor (initState: (C, Registry, Env) -> Result<S, E>)
      ensures cell == None && attempts == 0 && this.initState == initState
    {
      cell := None;
      this.initState := initState;
      attempts := 0;
    }
  }

  class ServerState<C, S, Env, E> {
    const configuration: C
    const state: ConnectorState<C, S, Env, E>
    const metrics: Registry

    /** `ServerState::new` (state.rs:42-55): an empty cell; nothing is initialised yet. */
    constructor (configuration: C, initState: (C, Registry, Env) -> Result<S, E>, metrics: Registry)
      ensures this.configuration == configuration && this.metrics == metrics
      ensures fresh(state) && state.initState == initState
      ensures state.cell == None && state.attempts == 0
    {
      this.configuration := configuration;
      this.metrics := metrics;
      state := new ConnectorState(initState);
    }

    /** `ServerState::configuration` (state.rs:57-60): reads no mutable state at all. */
    function Configuration(): (c: C)
      ensures c == configuration
    {
      configuration
    }

    /** `ServerState::metrics` (state.rs:79-82). */
    function Metrics(): (m: Registry)
      ensures m == metrics
    {
      metrics
    }

    /**
     * `ServerState::state` (state.rs:62-77): the cached value if the cell is set; otherwise
     * one call of `try_init_state` with the stored configuration and a handle on the
     * registry, whose success is cached and whose failure is returned with the cell left
     * empty, so that the next call tries again.
     */
    method State(env: Env) returns (r: Result<S, E>)
      modifies state
      ensures old(state.cell).Some? ==>
        && r == Ok(old(state.cell).value)
        && state.cell == old(state.cell)
        && state.attempts == old(state.attempts)
      ensures old(state.cell).None? ==>
        && r == state.initState(configuration, metrics, env)
        && state.attempts == old(state.attempts) + 1
        && state.cell == (if r.Ok? then Some(r.value) else None)
      // the same call as one step of the value-level view below
      ensures var (c, res, called) := GetOrTryInit(old(state.cell), state.initState(configuration, metrics, env));
        state.cell == c && r == res && state.attempts == old(state.attempts) + (if called then 1 else 0)
    {
      match state.cell {
        case Some(s) =>
          r := Ok(s);
        case None =>
          r := state.initState(configuration, metrics, env);
          state.attempts := state.attempts + 1;
          if r.Ok? {
            state.cell := Some(r.value);
          }
      }
    }

    /** `Clone for ServerState` (state.rs:27-38): a new handle on the same cell and registry. */
    method Clone() returns (c: ServerState<C, S, Env, E>)
      ensures fresh(c)
      ensures c.configuration == configuration && c.state == state && c.metrics == metrics
    {
      c := new ServerState.Share(configuration, state, metrics);
    }

    constructor Share(configuration: C, state: ConnectorState<C, S, Env, E>, metrics: Registry)
      ensures this.configuration == configuration && this.state == state && this.metrics == metrics
    {
      this.configuration := configuration;
      this.state := state;
      this.metrics := metrics;
    }
  }

  /**
   * `init_server_state` (state.rs:85-93): parses the configuration, propagating its error,
   * and builds a server state with a fresh registry and an EMPTY cell; `try_init_state` is
   * not called.
   */
  method InitServerState<C, S, Env, E>(
    parse: string -> Result<C, E>,
    initState: (C, Registry, Env) -> Result<S, E>,
    configDirectory: string)
    returns (r: Result<ServerState<C, S, Env, E>, E>)
    ensures r.Err? <==> parse(configDirectory).Err?
    ensures r.Err? ==> r.error == parse(configDirectory).error
    ensures r.Ok? ==>
      && fresh(r.value) && fresh(r.value.state) && fresh(r.value.metrics)
      && r.value.configuration == parse(configDirectory).value
      && r.value.state.initState == initState
      && r.value.state.cell == None && r.value.state.attempts == 0
  {
    var metrics := new Registry();
    var configuration :- parse(configDirectory);
    var s := new ServerState(configuration, initState, metrics);
    r := Ok(s);
  }

  /**
   * Once one clone has initialised the state, every other clone returns that same value and
   * `try_init_state` is not called again.
   */
  method ClonesShareTheCell<C, S, Env, E>(a: ServerState<C, S, Env, E>, first: Env, later: Env)
    returns (ra: Result<S, E>, rb: Result<S, E>)
    modifies a.state
    ensures ra.Ok? ==> rb == ra && a.state.cell == Some(ra.value)
    ensures ra.Ok? ==> a.state.attempts <= old(a.state.attempts) + 1
  {
    var b := a.Clone();
    ra := a.State(first);
    rb := b.State(later);
  }

  /**
   * The retry after a failure: a failed attempt leaves the cell empty, the next call tries
   * again, and once one succeeds later calls return its value without trying.
   */
  method RetryAfterFailure<C, S, Env, E>(a: ServerState<C, S, Env, E>, bad: Env, good: Env, any: Env)
    returns (r1: Result<S, E>, r2: Result<S, E>, r3: Result<S, E>)
    requires a.state.cell == None
    requires a.state.initState(a.configuration, a.metrics, bad).Err?
    requires a.state.initState(a.configuration, a.metrics, good).Ok?
    modifies a.state
    ensures r1 == a.state.initState(a.configuration, a.metrics, bad)
    ensures r2 == a.state.initState(a.configuration, a.metrics, good)
    ensures r3 == r2 && a.state.cell == Some(r2.value)
    ensures a.state.attempts == old(a.state.attempts) + 2
  {
    r1 := a.State(bad);
    r2 := a.State(good);
    r3 := a.State(any);
  }

  // ---------------------------------------------------------------------------------
  // The cell as a value: a run of calls to `state()`, each given the outcome that
  // `try_init_state` would have if it were called then.

  /**
   * One call: the new cell, what the call returns, and whether it called `try_init_state`.
   * A set cell answers and stays; an empty one calls, returns the outcome, and keeps it
   * exactly when it is a success. Afterwards the cell holds the returned value exactly
   * when the call succeeded.
   */
  function GetOrTryInit<S, E>(cell: Option<S>, outcome: Result<S, E>): (r: (Option<S>, Result<S, E>, bool))
    ensures r.2 <==> cell.None?
    ensures cell.Some? ==> r.0 == cell && r.1 == Ok(cell.value)
    ensures cell.None? ==> r.1 == outcome
    ensures r.0.Some? <==> r.1.Ok?
    ensures r.1.Ok? ==> r.0 == Some(r.1.value)
  {
    match cell
    case Some(v) => (cell, Ok(v), false)
    case None => (if outcome.Ok? then Some(outcome.value) else None, outcome, true)
  }

  /** A run of calls: the final cell, the results in order, and the number of attempts. */
  function Serve<S, E>(cell: Option<S>, outcomes: seq<Result<S, E>>): (r: (Option<S>, seq<Result<S, E>>, nat))
    ensures |r.1| == |outcomes|
    ensures r.2 <= |outcomes|
    decreases |outcomes|
  {
    if outcomes == [] then (cell, [], 0)
    else
      var (c1, res, called) := GetOrTryInit(cell, outcomes[0]);
      var (c2, rest, n) := Serve(c1, outcomes[1..]);
      (c2, [res] + rest, n + if called then 1 else 0)
  }

  /** The index of the first success, or the length if there is none. */
  function FirstOk<S, E>(outcomes: seq<Result<S, E>>): (k: nat)
    ensures k <= |outcomes|
    ensures forall i :: 0 <= i < k ==> outcomes[i].Err?
    ensures k < |outcomes| ==> outcomes[k].Ok?
  {
    if outcomes == [] || outcomes[0].Ok? then 0 else 1 + FirstOk(outcomes[1..])
  }

  /** Once set, the cached value never changes, is what every call returns, and nothing is retried. */
  lemma {:induction false} CachedValueNeverChanges<S, E>(v: S, outcomes: seq<Result<S, E>>)
    ensures Serve(Some(v), outcomes).0 == Some(v)
    ensures Serve(Some(v), outcomes).2 == 0
    ensures forall i :: 0 <= i < |outcomes| ==> Serve(Some(v), outcomes).1[i] == Ok(v)
    decreases |outcomes|
  {
    if outcomes != [] {
      CachedValueNeverChanges(v, outcomes[1..]);
    }
  }

  /**
   * From an empty cell: every call up to the first success calls `try_init_state` and
   * returns its error, the first success is cached and returned by every later call, and
   * `try_init_state` is called exactly once per failure plus once for the success.
   */
  lemma {:induction false} RetryUntilFirstSuccess<S, E>(outcomes: seq<Result<S, E>>)
    ensures var (cell, results, attempts) := Serve(None, outcomes);
      var k := FirstOk(outcomes);
      && (forall i :: 0 <= i < k ==> results[i] == outcomes[i])
      && (k < |outcomes| ==>
            && cell == Some(outcomes[k].value)
            && attempts == k + 1
            && forall i :: k <= i < |outcomes| ==> results[i] == outcomes[k])
      && (k == |outcomes| ==> cell == None && attempts == |outcomes|)
    decreases |outcomes|
  {
    if outcomes != [] {
      if outcomes[0].Ok? {
        CachedValueNeverChanges(outcomes[0].value, outcomes[1..]);
      } else {
        RetryUntilFirstSuccess(outcomes[1..]);
      }
    }
  }
}
