/** What the plugin hands to the operating system once a service key has
    been selected: the `vault` executable, the rewritten arguments and an
    environment of exactly two variables. Spawning the process is not
    modelled; the plan is where the model stops. */
module Launch {
  import opened Wrappers
  import opened ServiceKeys
  import opened Rewrite

  /** The executable the plugin runs. */
  const VaultCommand: string := "vault"
  /** Environment variable carrying the service key's token. */
  const TokenVar: string := "VAULT_TOKEN"
  /** Environment variable carrying the secret store's address. */
  const AddressVar: string := "VAULT_ADDR"

  datatype LaunchPlan = LaunchPlan(command: string, args: seq<string>, env: seq<string>)

  /** One `KEY=value` environment entry. */
  function EnvEntry(key: string, value: string): string {
    key + "=" + value
  }

  /** The plan for a selected key and the arguments after the service name.
      `cmd.Env` starts out nil and only the two entries are appended to it, so
      they are the child's whole environment. */
  function MakePlan(key: Entity, trailing: seq<string>): (p: LaunchPlan)
    ensures p.command == VaultCommand
    ensures |p.args| == |trailing|
    ensures forall i :: 0 <= i < |trailing| ==> p.args[i] == RewriteArg(trailing[i], key.credentials)
  {
    LaunchPlan(
      VaultCommand,
      RewriteArgs(trailing, key.credentials),
      [EnvEntry(TokenVar, key.credentials.auth.token), EnvEntry(AddressVar, key.credentials.address)])
  }

  /** The value a child process sees for `key` in an explicit environment
      list: the last entry for the key wins, as in Go's `os/exec`. */
  function EnvValue(env: seq<string>, key: string): Option<string> {
    if |env| == 0 then None
    else if HasPrefix(env[|env| - 1], key + "=") then Some(env[|env| - 1][|key| + 1..])
    else EnvValue(env[..|env| - 1], key)
  }

  /** An entry is found under exactly its own key (keys hold no `=`), and
      what follows the `=` is its value. */
  lemma EntryLookup(k: string, v: string, key: string)
    requires '=' !in k && '=' !in key
    ensures HasPrefix(EnvEntry(k, v), key + "=") <==> k == key
    ensures k == key ==> EnvEntry(k, v)[|key| + 1..] == v
  {
    var e := EnvEntry(k, v);
    if |key| < |k| {
      assert e[|key|] == k[|key|];
    } else if |key| > |k| {
      assert e[|k|] == '=';
    } else {
      assert (k + "=")[..|k|] == k && (key + "=")[..|key|] == key;
    }
  }

  /** The child's environment: the selected key's token and address under
      their two names, and nothing under any other name. */
  lemma LaunchEnvironment(key: Entity, trailing: seq<string>, name: string)
    requires '=' !in name
    ensures EnvValue(MakePlan(key, trailing).env, name) ==
      if name == TokenVar then Some(key.credentials.auth.token)
      else if name == AddressVar then Some(key.credentials.address)
      else None
  {
    var token := EnvEntry(TokenVar, key.credentials.auth.token);
    EntryLookup(TokenVar, key.credentials.auth.token, name);
    EntryLookup(AddressVar, key.credentials.address, name);
    assert EnvValue([token], name) == if name == TokenVar then Some(key.credentials.auth.token) else None;
  }
}
