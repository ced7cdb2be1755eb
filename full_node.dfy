/** An abstract bcoin full node, seen only through the five asynchronous
    calls the repair flow makes on it.  A lifecycle automaton says in which
    state each call is meaningful; a node handle records every call it
    receives, and what each call does (resolve or reject, which transactions
    the chain holds) is fixed by an environment value standing in for the
    node's storage and network. */
module FullNode {
  import opened Wrappers

  /** A transaction as getTX hands it back; its contents are not interpreted. */
  datatype Tx = Tx(raw: seq<bv8>)

  /** The options record a full node is constructed from. */
  datatype Config = Config(
    db: string,
    checkpoints: bool,
    network: string,
    listen: bool,
    logConsole: bool,
    logLevel: string,
    port: int,
    persistent: bool,
    workers: bool,
    memory: bool,
    prefix: string)

  /** The node calls made by the repair flow. */
  datatype Op = Open | Connect | GetTX(txid: string) | StopSync | Disconnect

  /** How a call settled: resolved without a value, resolved with the result
      of a lookup (a transaction or nothing), or rejected. */
  datatype Reply = Done | Fetched(tx: Option<Tx>) | Threw

  /** One call on the node together with how it settled. */
  datatype Event = Event(op: Op, reply: Reply) {
    predicate Returned() { !reply.Threw? }
  }

  /** Lifecycle of a node handle. */
  datatype NodeState = Created | Opened | Connected | SyncStopped | Disconnected

  /** What the node's storage and network make of each call when it is made
      in the right state: whether it resolves, and the transactions the
      chain holds, by transaction id. */
  datatype NodeEnv = NodeEnv(
    openOk: bool,
    connectOk: bool,
    getTXOk: bool,
    chain: map<string, Tx>,
    stopSyncOk: bool,
    disconnectOk: bool)

  /** The state in which `op` is meaningful. */
  function Expects(op: Op): NodeState {
    match op
    case Open => Created
    case Connect => Opened
    case GetTX(_) => Connected
    case StopSync => Connected
    case Disconnect => SyncStopped
  }

  /** The state the node is in once `op` has resolved. */
  function Enters(op: Op): NodeState {
    match op
    case Open => Opened
    case Connect => Connected
    case GetTX(_) => Connected
    case StopSync => SyncStopped
    case Disconnect => Disconnected
  }

  /** A call that resolves moves the node on; one that rejects leaves it where it was. */
  function After(s: NodeState, e: Event): NodeState {
    if e.Returned() then Enters(e.op) else s
  }

  /** How `op` settles when issued in the state it expects. */
  function Outcome(env: NodeEnv, op: Op): Reply {
    match op
    case Open => if env.openOk then Done else Threw
    case Connect => if env.connectOk then Done else Threw
    case GetTX(id) =>
      if !env.getTXOk then Threw
      else if id in env.chain then Fetched(Some(env.chain[id]))
      else Fetched(None)
    case StopSync => if env.stopSyncOk then Done else Threw
    case Disconnect => if env.disconnectOk then Done else Threw
  }

  /** How `op` settles when issued in state `s`: out of its lifecycle order it rejects. */
  function Answer(env: NodeEnv, s: NodeState, op: Op): (r: Reply)
    ensures r.Fetched? ==> op.GetTX? && s == Connected
    ensures r == Done ==> !op.GetTX? && s == Expects(op)
  {
    if s == Expects(op) then Outcome(env, op) else Threw
  }

  /** The state reached from `s` after the calls `t`. */
  function Replay(s: NodeState, t: seq<Event>): NodeState
    decreases |t|
  {
    if t == [] then s else Replay(After(s, t[0]), t[1..])
  }

  /** Every call in `t`, issued from `s` on, settled as the node answers it. */
  ghost predicate Answers(env: NodeEnv, s: NodeState, t: seq<Event>)
    decreases |t|
  {
    t == [] || (t[0].reply == Answer(env, s, t[0].op) && Answers(env, After(s, t[0]), t[1..]))
  }

  /** Every call in `t`, issued from `s` on, is made in the state it expects. */
  predicate Legal(s: NodeState, t: seq<Event>)
    decreases |t|
  {
    t == [] || (Expects(t[0].op) == s && Legal(After(s, t[0]), t[1..]))
  }

  lemma {:induction false} ReplayAppend(s: NodeState, t: seq<Event>, e: Event)
    ensures Replay(s, t + [e]) == After(Replay(s, t), e)
    decreases |t|
  {
    if t != [] {
      assert (t + [e])[1..] == t[1..] + [e];
      ReplayAppend(After(s, t[0]), t[1..], e);
    }
  }

  lemma {:induction false} AnswersAppend(env: NodeEnv, s: NodeState, t: seq<Event>, e: Event)
    ensures Answers(env, s, t + [e]) <==> Answers(env, s, t) && e.reply == Answer(env, Replay(s, t), e.op)
    decreases |t|
  {
    if t == [] {
      assert [e][1..] == [];
    } else {
      assert (t + [e])[1..] == t[1..] + [e];
      AnswersAppend(env, After(s, t[0]), t[1..], e);
    }
  }

  /** When every call is made in the state it expects, each one settles as
      the environment decides. */
  lemma {:induction false} LegalCallsSettleByEnv(env: NodeEnv, s: NodeState, t: seq<Event>)
    requires Answers(env, s, t) && Legal(s, t)
    ensures forall i :: 0 <= i < |t| ==> t[i].reply == Outcome(env, t[i].op)
    decreases |t|
  {
    if t != [] {
      LegalCallsSettleByEnv(env, After(s, t[0]), t[1..]);
      forall i | 0 < i < |t| ensures t[i].reply == Outcome(env, t[i].op) {
        assert t[i] == t[1..][i - 1];
      }
    }
  }

  /** In a legal history, a call that needs a state other than the starting
      one comes after an earlier call that resolved into that state. */
  lemma {:induction false} EnteredBefore(s: NodeState, t: seq<Event>, i: nat)
    requires Legal(s, t) && i < |t| && Expects(t[i].op) != s
    ensures exists j :: 0 <= j < i && t[j].Returned() && Enters(t[j].op) == Expects(t[i].op)
    decreases |t|
  {
    var s' := After(s, t[0]);
    if i == 0 {
      assert false;
    } else if s' == Expects(t[i].op) {
      assert t[0].Returned() && Enters(t[0].op) == s';
    } else {
      assert t[i] == t[1..][i - 1];
      EnteredBefore(s', t[1..], i - 1);
      var j :| 0 <= j < i - 1 && t[1..][j].Returned() && Enters(t[1..][j].op) == Expects(t[i].op);
      assert t[j + 1] == t[1..][j];
    }
  }

  /** A fresh node is connected only after it has been opened. */
  lemma ConnectAfterOpen(t: seq<Event>, i: nat)
    requires Legal(Created, t) && i < |t| && t[i].op == Connect
    ensures exists j :: 0 <= j < i && t[j].op == Open && t[j].Returned()
  {
    EnteredBefore(Created, t, i);
  }

  /** A fresh node is disconnected only after its synchronisation has stopped. */
  lemma DisconnectAfterStopSync(t: seq<Event>, i: nat)
    requires Legal(Created, t) && i < |t| && t[i].op == Disconnect
    ensures exists j :: 0 <= j < i && t[j].op == StopSync && t[j].Returned()
  {
    EnteredBefore(Created, t, i);
  }

  /** A node handle: its lifecycle state and the history of calls made on it. */
  class Node {
    const config: Config
    const env: NodeEnv
    var state: NodeState
    var trace: seq<Event>

    /** The state is the one the history leads to, and every call in the
        history settled as the node answers it. */
    ghost predicate Valid()
      reads this
    {
      state == Replay(Created, trace) && Answers(env, Created, trace)
    }

    /** `new bcoin.FullNode(config)`: a node that has received no calls yet. */
    constructor (config: Config, env: NodeEnv)
      ensures Valid()
      ensures this.config == config && this.env == env
      ensures state == Created && trace == []
    {
      this.config := config;
      this.env := env;
      state := Created;
      trace := [];
    }

    /** Makes one call and waits for it to settle. */
    method Call(op: Op) returns (reply: Reply)
      requires Valid()
      modifies this
      ensures Valid()
      ensures reply == Answer(env, old(state), op)
      ensures trace == old(trace) + [Event(op, reply)]
      ensures state == After(old(state), Event(op, reply))
    {
      reply := Answer(env, state, op);
      ReplayAppend(Created, trace, Event(op, reply));
      AnswersAppend(env, Created, trace, Event(op, reply));
      trace := trace + [Event(op, reply)];
      state := After(state, Event(op, reply));
    }
  }
}
