/** The `fixmissingtx` command's input adapter: the configuration found in
    the working directory, or the default one when none is found, supplies
    the repair flow's parameters. */
module CliAdapter {
  import opened Wrappers
  import opened FixMissingTx

  /** The fields of a node installation's configuration that the command reads. */
  datatype NodeSettings = NodeSettings(datadir: Option<string>, port: Option<int>, network: Option<string>)

  /** A located configuration. */
  datatype ConfigInfo = ConfigInfo(config: NodeSettings)

  /** The repair parameters: the found configuration if there is one, else
      the default, with its data directory as the node's prefix. */
  function RepairParams(found: Option<ConfigInfo>, fallback: ConfigInfo): (p: Params)
    ensures var s := if found.Some? then found.value.config else fallback.config;
      p.prefix == s.datadir && p.port == s.port && p.network == s.network
  {
    var configInfo := if found.None? then fallback else found.value;
    var config := configInfo.config;
    Params(prefix := config.datadir, port := config.port, network := config.network)
  }

  /** A found configuration decides the node alone: the default is then
      never consulted, and the node stores its data under the found data
      directory on the found network and port, or the command rejects with
      "Params not valid" when one of the three is missing or empty. */
  lemma FoundConfigDecides(info: ConfigInfo, d1: ConfigInfo, d2: ConfigInfo)
    ensures RepairParams(Some(info), d1) == RepairParams(Some(info), d2)
    ensures var r := GetBcoinConfig(RepairParams(Some(info), d1));
      r.Success? <==> TruthyString(info.config.datadir) && TruthyNumber(info.config.port) && TruthyString(info.config.network)
    ensures var r := GetBcoinConfig(RepairParams(Some(info), d1));
      r.Success? ==>
        Some(r.value.prefix) == info.config.datadir &&
        Some(r.value.port) == info.config.port &&
        Some(r.value.network) == info.config.network
  {
  }
}
