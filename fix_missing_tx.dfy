/** The transient-node repair flow: validate the three connection
    parameters, build a full node from them, start it, look one transaction
    up, stop it, and report the transaction or why there is none. */
module FixMissingTx {
  import opened Wrappers
  import opened FullNode

  /** The parameters handed to the flow; any of them may be missing. */
  datatype Params = Params(network: Option<string>, port: Option<int>, prefix: Option<string>)

  /** Why the flow rejects: invalid parameters, a lookup that found nothing,
      or the node call that rejected (its own error passes through). */
  datatype Error = ParamsNotValid | TxNotFound(txid: string) | NodeFailed(step: Op)

  /** The option values of a full node that the flow does not take from its caller. */
  predicate HasFixedDefaults(c: Config) {
    c.db == "leveldb" && c.checkpoints && c.listen && c.logConsole && c.logLevel == "info"
    && c.persistent && c.workers && !c.memory
  }

  /** JavaScript truthiness of a string field and of a number field. */
  predicate TruthyString(v: Option<string>) { v.Some? && v.value != "" }
  predicate TruthyNumber(v: Option<int>) { v.Some? && v.value != 0 }

  /** getBcoinConfig: reject falsy parameters, else the node's options. */
  function GetBcoinConfig(params: Params): (r: Result<Config, Error>)
    ensures r.Failure? <==>
      params.network == None || params.network == Some("") ||
      params.port == None || params.port == Some(0) ||
      params.prefix == None || params.prefix == Some("")
    ensures r.Failure? ==> r.error == ParamsNotValid
    ensures r.Success? ==>
      Some(r.value.network) == params.network &&
      Some(r.value.port) == params.port &&
      Some(r.value.prefix) == params.prefix
    ensures r.Success? ==> HasFixedDefaults(r.value)
  {
    if !TruthyString(params.network) || !TruthyNumber(params.port) || !TruthyString(params.prefix) then
      Failure(ParamsNotValid)
    else
      Success(Config(
        db := "leveldb",
        checkpoints := true,
        network := params.network.value,
        listen := true,
        logConsole := true,
        logLevel := "info",
        port := params.port.value,
        persistent := true,
        workers := true,
        memory := false,
        prefix := params.prefix.value))
  }

  /** The parameters a node configuration was built from. */
  function ParamsOf(c: Config): Params {
    Params(Some(c.network), Some(c.port), Some(c.prefix))
  }

  /** A configuration with the fixed defaults and truthy fields is exactly
      what its own parameters build, and a built configuration gives back
      the parameters it was built from. */
  lemma ParamsRoundTrip(params: Params, c: Config)
    ensures GetBcoinConfig(params).Success? ==> ParamsOf(GetBcoinConfig(params).value) == params
    ensures HasFixedDefaults(c) && c.network != "" && c.port != 0 && c.prefix != "" ==>
      GetBcoinConfig(ParamsOf(c)) == Success(c)
  {
  }

  /** Two valid parameter sets build the same configuration exactly when
      they are equal: nothing else goes into it. */
  lemma ConfigDependsOnlyOnParams(p: Params, q: Params)
    requires GetBcoinConfig(p).Success? && GetBcoinConfig(q).Success?
    ensures GetBcoinConfig(p) == GetBcoinConfig(q) <==> p == q
  {
    ParamsRoundTrip(p, GetBcoinConfig(p).value);
    ParamsRoundTrip(q, GetBcoinConfig(q).value);
  }

  /** The message each of the flow's own errors carries. */
  function Message(e: Error): string
    requires !e.NodeFailed?
  {
    match e
    case ParamsNotValid => "Params not valid"
    case TxNotFound(txid) => "TX with txid " + txid + " not found"
  }

  /** The not-found message names the transaction id, so distinct ids give
      distinct messages, and it never reads like the validation error. */
  lemma MessagesDistinguish(a: string, b: string)
    ensures Message(TxNotFound(a)) == Message(TxNotFound(b)) ==> a == b
    ensures Message(TxNotFound(a)) != Message(ParamsNotValid)
  {
    var ma, mb := Message(TxNotFound(a)), Message(TxNotFound(b));
    if ma == mb {
      assert ma[13..|ma| - 10] == a;
      assert mb[13..|mb| - 10] == b;
    }
    assert ma[0] == 'T' && Message(ParamsNotValid)[0] == 'P';
  }

  /** `calls` attempts `steps` in order, one call per step, and stops right
      after the first call that rejected. */
  predicate Attempted(calls: seq<Event>, steps: seq<Op>) {
    1 <= |calls| <= |steps|
    && (forall i :: 0 <= i < |calls| ==> calls[i].op == steps[i])
    && (forall i :: 0 <= i < |calls| - 1 ==> calls[i].Returned())
    && (|calls| < |steps| ==> !calls[|calls| - 1].Returned())
  }

  /** The step that rejected, if the last call did. */
  function LastFailure(calls: seq<Event>): Option<Op>
    requires calls != []
  {
    var last := calls[|calls| - 1];
    if last.Returned() then None else Some(last.op)
  }

  /** startBcoin: open, then connect. */
  method StartBcoin(node: Node) returns (failed: Option<Op>)
    requires node.Valid()
    modifies node
    ensures node.Valid()
    ensures |old(node.trace)| < |node.trace| && node.trace[..|old(node.trace)|] == old(node.trace)
    ensures Attempted(node.trace[|old(node.trace)|..], [Open, Connect])
    ensures failed == LastFailure(node.trace)
  {
    var reply := node.Call(Open);
    if reply.Threw? {
      return Some(Open);
    }
    reply := node.Call(Connect);
    if reply.Threw? {
      return Some(Connect);
    }
    return None;
  }

  /** stopBcoin: stop synchronising, then disconnect. */
  method StopBcoin(node: Node) returns (failed: Option<Op>)
    requires node.Valid()
    modifies node
    ensures node.Valid()
    ensures |old(node.trace)| < |node.trace| && node.trace[..|old(node.trace)|] == old(node.trace)
    ensures Attempted(node.trace[|old(node.trace)|..], [StopSync, Disconnect])
    ensures failed == LastFailure(node.trace)
  {
    var reply := node.Call(StopSync);
    if reply.Threw? {
      return Some(StopSync);
    }
    reply := node.Call(Disconnect);
    if reply.Threw? {
      return Some(Disconnect);
    }
    return None;
  }

  /** The calls a successful repair makes, in order. */
  function Script(txid: string): seq<Op> {
    [Open, Connect, GetTX(txid), StopSync, Disconnect]
  }

  /** `trace` is the script for `txid` run against `env` up to its first
      rejection, every call settling as the environment decides. */
  predicate FollowsScript(trace: seq<Event>, txid: string, env: NodeEnv) {
    Attempted(trace, Script(txid))
    && forall i :: 0 <= i < |trace| ==> trace[i].reply == Outcome(env, trace[i].op)
  }

  /** The transaction the lookup in `calls` handed back, if any. */
  function LookedUp(calls: seq<Event>): Option<Tx>
    decreases |calls|
  {
    if calls == [] then None
    else if calls[0].reply.Fetched? && calls[0].reply.tx.Some? then calls[0].reply.tx
    else LookedUp(calls[1..])
  }

  /** How the repair settles given its node's history: the error of the call
      that rejected, else the transaction looked up, else not found. */
  function Verdict(txid: string, trace: seq<Event>): Result<Tx, Error>
    requires trace != []
  {
    match LastFailure(trace)
    case Some(step) => Failure(NodeFailed(step))
    case None =>
      match LookedUp(trace)
      case Some(tx) => Success(tx)
      case None => Failure(TxNotFound(txid))
  }

  /** fixTx: the repair run against a node whose behaviour is `env`.  It
      returns how the promise settles, the configuration the node was built
      from (none when no node was built) and the calls the node received. */
  method FixTx(txid: string, params: Params, env: NodeEnv)
    returns (r: Result<Tx, Error>, built: Option<Config>, trace: seq<Event>)
    ensures built == if GetBcoinConfig(params).Success? then Some(GetBcoinConfig(params).value) else None
    ensures GetBcoinConfig(params).Failure? ==> r == Failure(ParamsNotValid) && trace == []
    ensures GetBcoinConfig(params).Success? ==> FollowsScript(trace, txid, env) && r == Verdict(txid, trace)
  {
    var bcoinConfig := GetBcoinConfig(params);
    if bcoinConfig.Failure? {
      return Failure(bcoinConfig.error), None, [];
    }
    var node := new Node(bcoinConfig.value, env);
    built := Some(node.config);
    var failed := StartBcoin(node);
    if failed.Some? {
      ScriptPrefixLegal(node.trace, txid);
      LegalCallsSettleByEnv(env, Created, node.trace);
      return Failure(NodeFailed(failed.value)), built, node.trace;
    }
    ghost var started := node.trace;
    var reply := node.Call(GetTX(txid));
    if reply.Threw? {
      ScriptPrefixLegal(node.trace, txid);
      LegalCallsSettleByEnv(env, Created, node.trace);
      return Failure(NodeFailed(GetTX(txid))), built, node.trace;
    }
    ghost var queried := node.trace;
    failed := StopBcoin(node);
    trace := node.trace;
    assert trace == queried + trace[|queried|..];
    ScriptPrefixLegal(trace, txid);
    LegalCallsSettleByEnv(env, Created, trace);
    if failed.Some? {
      return Failure(NodeFailed(failed.value)), built, trace;
    }
    LookedUpOfScript(trace, txid, env);
    if reply.tx.None? {
      return Failure(TxNotFound(txid)), built, trace;
    }
    return Success(reply.tx.value), built, trace;
  }

  /** Each step of `steps` expects the state its predecessor enters. */
  predicate Chained(steps: seq<Op>) {
    forall k :: 0 <= k < |steps| - 1 ==> Enters(steps[k]) == Expects(steps[k + 1])
  }

  /** Attempting a chained sequence of steps from the state its first step
      expects makes every call in the state it expects. */
  lemma {:induction false} AttemptedChainLegal(s: NodeState, calls: seq<Event>, steps: seq<Op>)
    requires Attempted(calls, steps) && Chained(steps) && Expects(steps[0]) == s
    ensures Legal(s, calls)
    decreases |calls|
  {
    if |calls| > 1 {
      assert Attempted(calls[1..], steps[1..]) by {
        forall i | 0 <= i < |calls| - 1 ensures calls[1..][i].op == steps[1..][i] {
          assert calls[i + 1].op == steps[i + 1];
        }
      }
      assert Chained(steps[1..]) by {
        forall k | 0 <= k < |steps| - 2 ensures Enters(steps[1..][k]) == Expects(steps[1..][k + 1]) {
          assert steps[1..][k] == steps[k + 1];
        }
      }
      AttemptedChainLegal(After(s, calls[0]), calls[1..], steps[1..]);
    }
  }

  /** A trace that attempts the script in order is legal for a fresh node. */
  lemma ScriptPrefixLegal(trace: seq<Event>, txid: string)
    requires Attempted(trace, Script(txid))
    ensures Legal(Created, trace)
  {
    AttemptedChainLegal(Created, trace, Script(txid));
  }

  /** Calls that are not lookups contribute nothing to what was fetched. */
  lemma {:induction false} LookedUpSkips(calls: seq<Event>, k: nat)
    requires k <= |calls|
    requires forall i :: 0 <= i < k ==> !calls[i].reply.Fetched?
    ensures LookedUp(calls) == LookedUp(calls[k..])
    decreases k
  {
    if k > 0 {
      assert calls[1..][k - 1..] == calls[k..];
      LookedUpSkips(calls[1..], k - 1);
    }
  }

  /** What a run of the script fetched is what its lookup, the third call, returned. */
  lemma LookedUpOfScript(trace: seq<Event>, txid: string, env: NodeEnv)
    requires FollowsScript(trace, txid, env)
    ensures LookedUp(trace) == if |trace| >= 3 && trace[2].reply.Fetched? then trace[2].reply.tx else None
  {
    if |trace| < 3 {
      LookedUpSkips(trace, |trace|);
    } else {
      LookedUpSkips(trace, 2);
      if !trace[2].reply.Fetched? || trace[2].reply.tx.None? {
        assert trace[2..][1..] == trace[3..];
        LookedUpSkips(trace[3..], |trace| - 3);
      }
    }
  }

  /** Reference run: issue each step with the environment's reply, stopping
      after the first one that rejects. */
  function RunSteps(steps: seq<Op>, env: NodeEnv): seq<Event>
    decreases |steps|
  {
    if steps == [] then []
    else
      var e := Event(steps[0], Outcome(env, steps[0]));
      if e.Returned() then [e] + RunSteps(steps[1..], env) else [e]
  }

  /** Attempting the steps in order with the environment's replies yields
      exactly the reference run, and the reference run is such an attempt. */
  lemma {:induction false} AttemptedIsRun(calls: seq<Event>, steps: seq<Op>, env: NodeEnv)
    requires steps != []
    ensures (Attempted(calls, steps) && forall i :: 0 <= i < |calls| ==> calls[i].reply == Outcome(env, calls[i].op))
      <==> calls == RunSteps(steps, env)
    decreases |steps|
  {
    var e := Event(steps[0], Outcome(env, steps[0]));
    var run := RunSteps(steps, env);
    if Attempted(calls, steps) && forall i :: 0 <= i < |calls| ==> calls[i].reply == Outcome(env, calls[i].op) {
      assert calls[0] == e;
      if |calls| > 1 {
        assert Attempted(calls[1..], steps[1..]) by {
          forall i | 0 <= i < |calls| - 1 ensures calls[1..][i].op == steps[1..][i] {
            assert calls[i + 1].op == steps[i + 1];
          }
        }
        AttemptedIsRun(calls[1..], steps[1..], env);
        assert calls == [e] + calls[1..];
      } else if e.Returned() {
        assert |steps| == 1;
      }
    }
    if calls == run {
      if e.Returned() && |steps| > 1 {
        AttemptedIsRun(RunSteps(steps[1..], env), steps[1..], env);
        assert forall i :: 0 < i < |calls| ==> calls[i] == RunSteps(steps[1..], env)[i - 1];
      }
    }
  }

  /** The run of the script is determined by the environment: two traces
      that follow it are the same trace. */
  lemma ScriptTraceUnique(t1: seq<Event>, t2: seq<Event>, txid: string, env: NodeEnv)
    requires FollowsScript(t1, txid, env) && FollowsScript(t2, txid, env)
    ensures t1 == t2
  {
    AttemptedIsRun(t1, Script(txid), env);
    AttemptedIsRun(t2, Script(txid), env);
  }

  /** The reply the lookup gets from a node that resolves it. */
  function Lookup(env: NodeEnv, txid: string): Option<Tx> {
    if txid in env.chain then Some(env.chain[txid]) else None
  }

  /** The run of the script, case by case on which call rejects first. */
  lemma ScriptTraceCases(t: seq<Event>, txid: string, env: NodeEnv)
    requires FollowsScript(t, txid, env)
    ensures !env.openOk ==> t == [Event(Open, Threw)]
    ensures env.openOk && !env.connectOk ==> t == [Event(Open, Done), Event(Connect, Threw)]
    ensures env.openOk && env.connectOk && !env.getTXOk ==>
      t == [Event(Open, Done), Event(Connect, Done), Event(GetTX(txid), Threw)]
    ensures env.openOk && env.connectOk && env.getTXOk && !env.stopSyncOk ==>
      t == [Event(Open, Done), Event(Connect, Done), Event(GetTX(txid), Fetched(Lookup(env, txid))),
            Event(StopSync, Threw)]
    ensures env.openOk && env.connectOk && env.getTXOk && env.stopSyncOk ==>
      t == [Event(Open, Done), Event(Connect, Done), Event(GetTX(txid), Fetched(Lookup(env, txid))),
            Event(StopSync, Done), Event(Disconnect, if env.disconnectOk then Done else Threw)]
  {
    AttemptedIsRun(t, Script(txid), env);
    var sc := Script(txid);
    assert sc[1..] == [Connect, GetTX(txid), StopSync, Disconnect];
    assert sc[2..] == [GetTX(txid), StopSync, Disconnect];
    assert sc[3..] == [StopSync, Disconnect];
    assert sc[4..] == [Disconnect];
    var r4 := RunSteps(sc[4..], env);
    assert r4 == [Event(Disconnect, if env.disconnectOk then Done else Threw)] by {
      assert sc[4..][0] == Disconnect && sc[4..][1..] == [];
      assert RunSteps(sc[4..][1..], env) == [];
    }
    var r3 := RunSteps(sc[3..], env);
    assert r3 == if env.stopSyncOk then [Event(StopSync, Done)] + r4 else [Event(StopSync, Threw)] by {
      assert sc[3..][1..] == sc[4..];
    }
    var r2 := RunSteps(sc[2..], env);
    assert r2 == if env.getTXOk then [Event(GetTX(txid), Fetched(Lookup(env, txid)))] + r3
                 else [Event(GetTX(txid), Threw)] by {
      assert sc[2..][1..] == sc[3..];
    }
    var r1 := RunSteps(sc[1..], env);
    assert r1 == if env.connectOk then [Event(Connect, Done)] + r2 else [Event(Connect, Threw)] by {
      assert sc[1..][1..] == sc[2..];
    }
    assert t == if env.openOk then [Event(Open, Done)] + r1 else [Event(Open, Threw)];
  }

  /** Number of calls of `op` in `calls`. */
  function Occurrences(calls: seq<Event>, op: Op): nat
    decreases |calls|
  {
    if calls == [] then 0 else (if calls[0].op == op then 1 else 0) + Occurrences(calls[1..], op)
  }

  /** `op` is called once in `calls` when it is called at index `k` and
      nowhere else, and never when `k` is outside the calls. */
  lemma {:induction false} OccurrencesAt(calls: seq<Event>, op: Op, k: int)
    requires forall i :: 0 <= i < |calls| ==> (calls[i].op == op <==> i == k)
    ensures Occurrences(calls, op) == if 0 <= k < |calls| then 1 else 0
    decreases |calls|
  {
    if calls != [] {
      forall i | 0 <= i < |calls| - 1 ensures calls[1..][i].op == op <==> i == k - 1 {
        assert calls[1..][i] == calls[i + 1];
      }
      OccurrencesAt(calls[1..], op, k - 1);
    }
  }

  /** If starting the node fails, the flow rejects with that step's error and
      neither looks the transaction up nor tries to stop the node; connect
      is not even tried when open fails. */
  lemma StartFailureEndsRun(t: seq<Event>, txid: string, env: NodeEnv)
    requires FollowsScript(t, txid, env) && !(env.openOk && env.connectOk)
    ensures Verdict(txid, t) == Failure(NodeFailed(if env.openOk then Connect else Open))
    ensures forall i :: 0 <= i < |t| ==> t[i].op == Open || t[i].op == Connect
    ensures !env.openOk ==> |t| == 1
  {
    ScriptTraceCases(t, txid, env);
  }

  /** If the lookup rejects, the flow rejects with the lookup's error and
      never stops the node: the trace ends at the lookup. */
  lemma LookupRejectionSkipsStop(t: seq<Event>, txid: string, env: NodeEnv)
    requires FollowsScript(t, txid, env) && env.openOk && env.connectOk && !env.getTXOk
    ensures Verdict(txid, t) == Failure(NodeFailed(GetTX(txid)))
    ensures t[|t| - 1].op == GetTX(txid)
    ensures Occurrences(t, StopSync) == 0 && Occurrences(t, Disconnect) == 0
  {
    ScriptTraceCases(t, txid, env);
    OccurrencesAt(t, StopSync, -1);
    OccurrencesAt(t, Disconnect, -1);
  }

  /** Once the lookup has resolved, stopping is attempted exactly once,
      whatever the lookup returned: one stopSync, then one disconnect unless
      stopSync rejected, both after the lookup. */
  lemma StopRunsOnceAfterLookup(t: seq<Event>, txid: string, env: NodeEnv)
    requires FollowsScript(t, txid, env) && env.openOk && env.connectOk && env.getTXOk
    ensures t[2] == Event(GetTX(txid), Fetched(Lookup(env, txid))) && t[3].op == StopSync
    ensures Occurrences(t, StopSync) == 1
    ensures Occurrences(t, Disconnect) == if env.stopSyncOk then 1 else 0
    ensures env.stopSyncOk ==> t[4].op == Disconnect
  {
    ScriptTraceCases(t, txid, env);
    OccurrencesAt(t, StopSync, 3);
    OccurrencesAt(t, Disconnect, if env.stopSyncOk then 4 else -1);
  }

  /** The flow reports "not found" exactly when every call resolved and the
      chain does not hold the transaction, and then only after stopSync and
      disconnect have both run. */
  lemma NotFoundOnlyAfterStop(t: seq<Event>, txid: string, env: NodeEnv)
    requires FollowsScript(t, txid, env)
    ensures Verdict(txid, t).Failure? && Verdict(txid, t).error.TxNotFound? <==>
      env.openOk && env.connectOk && env.getTXOk && env.stopSyncOk && env.disconnectOk && txid !in env.chain
    ensures Verdict(txid, t).Failure? && Verdict(txid, t).error.TxNotFound? ==>
      t == [Event(Open, Done), Event(Connect, Done), Event(GetTX(txid), Fetched(None)),
            Event(StopSync, Done), Event(Disconnect, Done)]
  {
    ScriptTraceCases(t, txid, env);
    LookedUpOfScript(t, txid, env);
  }

  /** The flow succeeds exactly when every call resolved and the chain holds
      the transaction asked for, which is then what it returns; its node
      received the whole script, the lookup with the caller's id. */
  lemma SuccessRunsWholeScript(t: seq<Event>, txid: string, env: NodeEnv, tx: Tx)
    requires FollowsScript(t, txid, env)
    ensures Verdict(txid, t) == Success(tx) <==>
      env.openOk && env.connectOk && env.getTXOk && env.stopSyncOk && env.disconnectOk &&
      txid in env.chain && env.chain[txid] == tx
    ensures Verdict(txid, t).Success? ==>
      |t| == |Script(txid)| && (forall i :: 0 <= i < |t| ==> t[i].op == Script(txid)[i] && t[i].Returned())
  {
    ScriptTraceCases(t, txid, env);
    LookedUpOfScript(t, txid, env);
  }

  /** As written, a rejection while stopping replaces the outcome of the
      lookup: the transaction found, or the not-found error, is lost. */
  lemma StopRejectionOverridesLookup(t: seq<Event>, txid: string, env: NodeEnv)
    requires FollowsScript(t, txid, env) && env.openOk && env.connectOk && env.getTXOk
    requires !(env.stopSyncOk && env.disconnectOk)
    ensures Verdict(txid, t) == Failure(NodeFailed(if env.stopSyncOk then Disconnect else StopSync))
  {
    ScriptTraceCases(t, txid, env);
  }
}
