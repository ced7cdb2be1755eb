# Transient-node transaction repair, modelled in Dafny

This project models the `fixmissingtx` repair flow of the bitcore-node
command-line front end. The flow takes three connection parameters
(network, port, data prefix). It validates them and builds a bcoin full-node
configuration. Then it starts a temporary node (open, then connect), looks
one transaction up by id, and stops the node (stopSync, then disconnect).
It reports the transaction, "TX with txid … not found", or the error of the
node call that rejected.

Files and modules:

- `wrappers.dfy` (`Wrappers`): `Option` and `Result`.
- `full_node.dfy` (`FullNode`): the bcoin full node as an abstract service.
  - It has the five calls `Open`, `Connect`, `GetTX(txid)`, `StopSync` and `Disconnect`.
  - A lifecycle automaton (`Expects`, `Enters`, `After`) says which state each call needs and which state it leads to: `Created → Opened → Connected → SyncStopped → Disconnected`.
  - `Legal` says a history makes every call in the state that call needs.
  - The class `Node` is the node handle. It keeps a `state` and a `trace` of every call with how it settled. Its invariant `Valid()` says the state is the one its history leads to.
  - Its behaviour comes from a `NodeEnv` value: whether each call resolves, and which transactions the chain holds. This value stands in for the node's storage and network.
- `fix_missing_tx.dfy` (`FixMissingTx`): `GetBcoinConfig`, `StartBcoin`, `StopBcoin` and `FixTx`, plus the lemmas about the runs they produce.
  - `RunSteps` is an independent reference definition of such a run.
  - `Verdict` gives the outcome a run settles with.
- `cli_adapter.dfy` (`CliAdapter`): the `fixmissingtx` command's input adapter. It takes the found configuration, or the default when none is found, and maps `datadir`, `port` and `network` to the repair parameters.

JavaScript truthiness is modelled for the field types used here. A missing
field (`undefined` or `null`) is `None`. A falsy string is `Some("")`. A
falsy port is `Some(0)`.

Three behaviours of `fixTx` that a caller may not expect:

- A rejection from `stopSync` or `disconnect` (`lib/cli/fix.missing.tx.js:47`) propagates out of `fixTx`. It replaces both a found transaction and the not-found error. `StopRejectionOverridesLookup` states this.
- A rejected `getTX` (line 46) leaves `fixTx` before `stopBcoin` is called, so the node is never stopped. `LookupRejectionSkipsStop` states this.
- `fixTx` resolves with no value and prints the transaction (line 51). The model's `FixTx` returns `Success(tx)` so that the transaction it reports can be stated.

## Model

| member | source | states |
|---|---|---|
| FixMissingTx.GetBcoinConfig | lib/cli/fix.missing.tx.js:5-28 | Rejects with `ParamsNotValid` exactly when network, port or prefix is missing or falsy (empty string, port 0). Otherwise it returns a config that carries the three inputs unchanged and has db 'leveldb', checkpoints, listen, logConsole, persistent and workers true, logLevel 'info' and memory false. |
| FixMissingTx.ParamsRoundTrip | lib/cli/fix.missing.tx.js:14-27 | A built config gives back the parameters it was built from. Every config with the fixed defaults and truthy fields is exactly what its own parameters build. |
| FixMissingTx.ConfigDependsOnlyOnParams | lib/cli/fix.missing.tx.js:14-26 | Two valid parameter sets build equal configs if and only if they are equal. Nothing else enters the config. |
| FixMissingTx.MessagesDistinguish | lib/cli/fix.missing.tx.js:48-49 | The not-found message determines the transaction id it names. It never equals "Params not valid". |
| FixMissingTx.StartBcoin | lib/cli/fix.missing.tx.js:36-39 | Appends to the node's history an in-order attempt at open then connect. Connect is tried only if open resolved. The step that rejected is returned. The node invariant is kept. |
| FixMissingTx.StopBcoin | lib/cli/fix.missing.tx.js:30-33 | Appends an in-order attempt at stopSync then disconnect. Disconnect is tried only if stopSync resolved. The step that rejected is returned. |
| FixMissingTx.FixTx | lib/cli/fix.missing.tx.js:41-53 | Invalid parameters: rejects with `ParamsNotValid` and the node receives no call. Otherwise the node's calls follow the script open, connect, getTX(txid), stopSync, disconnect up to the first rejection, each settling as the node's environment decides. The outcome is the `Verdict` of that history. The node is built from exactly the config `GetBcoinConfig` returned, and no node is built for invalid parameters. |
| FixMissingTx.AttemptedIsRun | lib/cli/fix.missing.tx.js:41-47 | A history attempts the steps in order, stops at the first rejection and holds the environment's replies if and only if it equals the reference run `RunSteps`. |
| FixMissingTx.ScriptTraceUnique | lib/cli/fix.missing.tx.js:41-47 | Two histories that follow the script against the same environment are equal. |
| FixMissingTx.ScriptTraceCases | lib/cli/fix.missing.tx.js:41-47 | The exact history for each first rejecting call. When every call resolves it is open, connect, getTX(txid) with the chain's answer, stopSync, disconnect. |
| FixMissingTx.StartFailureEndsRun | lib/cli/fix.missing.tx.js:45 | If open or connect rejects, the flow rejects with that step. Only open and connect were called, so there is no lookup and no stop. Connect is not called when open rejects. |
| FixMissingTx.LookupRejectionSkipsStop | lib/cli/fix.missing.tx.js:46 | If getTX rejects, the flow rejects with the lookup's error. The history ends at getTX. stopSync and disconnect are never called. |
| FixMissingTx.StopRunsOnceAfterLookup | lib/cli/fix.missing.tx.js:46-47 | Once getTX has resolved, whatever it returned, stopSync is called exactly once, right after it. Disconnect is called once if stopSync resolved and never otherwise. |
| FixMissingTx.NotFoundOnlyAfterStop | lib/cli/fix.missing.tx.js:47-49 | The flow reports not found if and only if every call resolved and the chain lacks the id. The history is then the whole script with stopSync and disconnect resolved. |
| FixMissingTx.SuccessRunsWholeScript | lib/cli/fix.missing.tx.js:46-52 | The flow succeeds with `tx` if and only if every call resolved and the chain maps the caller's txid to `tx`. A successful history is the whole script, every call resolved. |
| FixMissingTx.StopRejectionOverridesLookup | lib/cli/fix.missing.tx.js:46-47 | After a resolved lookup, a rejecting stopSync or disconnect is the outcome, whatever the lookup found. |
| FixMissingTx.AttemptedChainLegal | lib/cli/fix.missing.tx.js:30-39 | Attempting steps that each expect the state their predecessor enters, from the first step's state, calls the node only in the states the calls need. |
| FixMissingTx.ScriptPrefixLegal | lib/cli/fix.missing.tx.js:41-47 | Every history that attempts the repair script is legal for a freshly constructed node. |
| FixMissingTx.LookedUpOfScript | lib/cli/fix.missing.tx.js:46-48 | What a run of the script looked up is exactly what its getTX call returned. |
| FullNode.Node.constructor | lib/cli/fix.missing.tx.js:43 | A new node is in state `Created` with an empty history and keeps the config it was built from. |
| FullNode.Node.Call | lib/cli/fix.missing.tx.js:30-39 | One awaited node call. It is appended to the history with its reply. It settles as the environment decides when made in the state it needs and rejects otherwise. The state moves on only if it resolved. The invariant is kept, by `ReplayAppend` and `AnswersAppend`. |
| FullNode.LegalCallsSettleByEnv | lib/cli/fix.missing.tx.js:41-47 | In a legal history of a valid node, every call settles exactly as the environment decides. |
| FullNode.EnteredBefore | lib/cli/fix.missing.tx.js:30-39 | In a legal history, a call needing a state other than the start state comes after an earlier resolved call that entered that state. |
| FullNode.ConnectAfterOpen | lib/cli/fix.missing.tx.js:36-39 | In a legal history of a fresh node, every connect comes after an open that resolved. |
| FullNode.DisconnectAfterStopSync | lib/cli/fix.missing.tx.js:30-33 | In a legal history of a fresh node, every disconnect comes after a stopSync that resolved. |
| FullNode.ReplayAppend | lib/cli/fix.missing.tx.js:30-39 | The state after a history extended by one call is that call's successor of the previous state. |
| FullNode.AnswersAppend | lib/cli/fix.missing.tx.js:30-39 | An extended history is answered by the node if and only if the prefix was and the new call got the node's answer in the state reached. |
| CliAdapter.RepairParams | lib/cli/main.js:148-158 | The parameters come from the found configuration, or the default when none is found. `datadir` becomes prefix; port and network carry over. |
| CliAdapter.FoundConfigDecides | lib/cli/main.js:148-161 | With a configuration found, the default is irrelevant. Validation passes if and only if its datadir, port and network are truthy. The config built then carries exactly those three values; that `FixTx` builds its node from this config is stated by `FixTx`'s contract. |

## Left out

- bcoin's `FullNode` internals (leveldb storage, peer networking, chain sync, transaction lookup) are not modelled. The node is a state machine whose replies come from the `NodeEnv` parameter, and `Tx` is uninterpreted bytes.
- The node rejects any call made outside its lifecycle order. This is a modelling assumption: bcoin's own checks are not part of this model, and the repair flow never makes such a call (`ScriptPrefixLegal`).
- Constructing the node (`lib/cli/fix.missing.tx.js:43`) is assumed not to throw. bcoin's own checks of the options, such as an unknown network name, are not modelled. `FixTx` therefore always makes at least the `open` call for valid parameters.
- Promises and asynchrony: each `await` is a sequential call that resolves or rejects. There is no concurrency.
- The error object a rejecting node call carries is not modelled. `NodeFailed(step)` records only which call rejected.
- JavaScript values of other types in the parameters (`false`, `NaN`, a port given as a string, objects) are not modelled. Network and prefix are strings, the port is an integer, and a missing or `null` field is `None`.
- Printing the found transaction (`lib/cli/fix.missing.tx.js:51`) is output only. The model returns the transaction instead.
- `lib/cli/main.js` apart from lines 148-161 is not modelled. This covers command registration, argument parsing, help text, the other commands, console output and `process.exit` with its exit codes 0 and 1 (lines 163-168).
- The scaffold's `findConfig` and `defaultConfig` are not part of this model. Their results are parameters of `CliAdapter.RepairParams`.
