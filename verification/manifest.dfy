/**
 The `deployment` section of the package manifest: the named target
 servers, the exclude list handed to rsync, and the version file name.
 */
module Manifest {
  import opened JsText

  /** One entry of a server's `replace-configs`; the script hands these to
      the regex-replace plugin unchanged. */
  datatype ReplaceRule = ReplaceRule(search: JsString, replace: JsString)

  datatype ServerConfig = ServerConfig(
    user: JsString,
    ip: JsString,
    dest: JsString,
    replaceConfigs: seq<ReplaceRule>)

  datatype ServerEntry = ServerEntry(name: JsString, config: ServerConfig)

  predicate UniqueNames(entries: seq<ServerEntry>) {
    forall i, j :: 0 <= i < j < |entries| ==> entries[i].name != entries[j].name
  }

  /** `deployment.servers`: a JSON object, so its names are distinct, kept
      in the order the manifest lists them. */
  type ServerTable = entries: seq<ServerEntry> | UniqueNames(entries)

  datatype DeploymentConfig = DeploymentConfig(
    servers: ServerTable,
    exclude: seq<JsString>,
    versionFile: JsString)

  /** `servers[name]`: the configuration of the server of that name, if any. */
  function Lookup(servers: ServerTable, name: JsString): Option<ServerConfig> {
    if |servers| == 0 then None
    else if servers[0].name == name then Some(servers[0].config)
    else Lookup(servers[1..], name)
  }

  /** The lookup finds nothing exactly when no entry has the name, and
      otherwise the configuration of the entry that has it. */
  lemma {:induction false} LookupFinds(servers: ServerTable, name: JsString)
    ensures Lookup(servers, name).None? <==> forall i :: 0 <= i < |servers| ==> servers[i].name != name
    ensures forall i :: 0 <= i < |servers| && servers[i].name == name ==>
              Lookup(servers, name) == Some(servers[i].config)
  {
    if |servers| > 0 {
      LookupFinds(servers[1..], name);
      assert forall i :: 0 < i < |servers| ==> servers[i] == servers[1..][i - 1];
    }
  }
}
