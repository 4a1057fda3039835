# cf-vault in Dafny

A model of the `vault` command of the cf-vault Cloud Foundry CLI plugin. Given
`cf vault <service-instance> <vault-args...>`, the plugin looks up the service
instance, fetches its service keys from the platform API with the user's
access token, takes the first key, rewrites the alias prefixes `cf_o/`,
`cf_s/` and `cf_i/` in the trailing arguments into the key's
organisation-shared, space-shared and instance (generic) backend paths, and
runs `vault` with those arguments and with `VAULT_TOKEN` and `VAULT_ADDR`
taken from the key.

Modules:

- `Wrappers` (`wrappers.dfy`): `Option` and a failure-compatible `Result` that stands for Go's `(value, err)` pairs.
- `ServiceKeys` (`service_keys.dfy`): the decoded service-key listing, one datatype per nested JSON record.
- `Rewrite` (`rewrite.dfy`): the alias constants and the rewrite loop, with a scope table (`Scope`, `PrefixOf`, `PathOf`) as an independent reference for it.
- `Launch` (`launch.dfy`): the launch plan (command, arguments, environment) and how a child process reads its environment.
- `Plugin` (`plugin.dfy`): the decision pipeline of `Run`. The platform session, `url.PathEscape`, `http.NewRequest`, the HTTP response and the JSON decoder are inputs, collected in `Env`. Every `log.Fatal` becomes an `ErrorKind`, and the child process is a parameter `exec`.

Three behaviours of the code worth noting:

- The child's environment is exactly the two `VAULT_*` entries. `cmd.Env` starts as nil and only those two are appended, and a non-nil `Env` replaces the parent's environment. Apart from the Windows behaviour listed under "Left out", nothing is inherited.
- A failing or non-zero-exiting `vault` ends in `log.Fatal`, which exits with status 1. The child's own exit code is not passed on (`SubprocessFailure`).
- `args[0]` is read before any length check, so an empty argument list is an index panic (`EmptyArgs`), not a usage error.

## Model

| member | source | states |
|---|---|---|
| Rewrite.PrefixOf | cmd/cf-vault/cf-vault.go:16-20 | each alias is five characters, and its only `/` is the last one |
| Rewrite.PrefixesExclusive | cmd/cf-vault/cf-vault.go:16-20 | no argument begins with two different aliases, so the order of the `switch` cases never matters |
| Rewrite.RewriteArg | cmd/cf-vault/cf-vault.go:99-106 | an argument with no alias is forwarded unchanged; one that begins with the alias of any scope becomes that scope's path, `/`, and the remainder, matching the alias table |
| Rewrite.RewriteAliased | cmd/cf-vault/cf-vault.go:100-105 | alias + r always becomes path + `/` + r, including when the path is empty |
| Rewrite.BareAliasForwarded | cmd/cf-vault/cf-vault.go:99-107 | `cf_o`, `cf_s` and `cf_i` without the slash are forwarded unchanged |
| Rewrite.RewriteArgs | cmd/cf-vault/cf-vault.go:96-108 | the output has the input's length, and output i is the rewrite of input i alone |
| Rewrite.RewriteLoop | cmd/cf-vault/cf-vault.go:96-108 | the appending loop computes the element-wise rewrite and forwards alias-free arguments unchanged |
| Rewrite.RewriteArgsAppend | cmd/cf-vault/cf-vault.go:96-108 | rewriting a concatenation is the concatenation of the rewrites, so no output depends on neighbouring arguments |
| Rewrite.RewriteIdempotent | cmd/cf-vault/cf-vault.go:99-106 | when no credential path begins with an alias, rewriting a rewritten argument changes nothing |
| Rewrite.SecondPassDiffers | cmd/cf-vault/cf-vault.go:99-106 | a path that begins with an alias would be rewritten again by a second pass, which the single match on the original argument avoids |
| Rewrite.RewriteExamples | cmd/cf-vault/cf-vault.go:100-105 | `cf_o/secret/foo`, `cf_s/db/pass` and `cf_i/token` become `orgs/acme/secret/foo`, `spaces/dev/db/pass` and `instances/abc123/token` |
| Launch.MakePlan | cmd/cf-vault/cf-vault.go:110-114 | the plan runs `vault`, and its arguments are the element-wise rewrite of the trailing arguments under the selected key |
| Launch.LaunchEnvironment | cmd/cf-vault/cf-vault.go:110-114 | the child sees the key's token under `VAULT_TOKEN`, its address under `VAULT_ADDR`, and no other variable |
| Plugin.KeysRequest | cmd/cf-vault/cf-vault.go:67-71 | the request carries the access token unchanged as `Authorization`, and its URL starts with the API endpoint and `/v2/service_instances/` |
| Plugin.KeysUrlIdentifiesInstance | cmd/cf-vault/cf-vault.go:67 | for one endpoint, the listing URL determines the escaped instance GUID |
| Plugin.CheckResponse | cmd/cf-vault/cf-vault.go:78-86 | a response is accepted if and only if its status is 200 and its body decodes; any other status is `UnexpectedStatus` whatever the body; a 200 whose body does not decode is `Decode` with the decoder's error |
| Plugin.SelectKey | cmd/cf-vault/cf-vault.go:88-92 | selection succeeds if and only if the listing is non-empty, and then yields the first entity; an empty listing is `NoServiceKey` for the service name |
| Plugin.FetchKey | cmd/cf-vault/cf-vault.go:51-92 | the first failing step decides the error: lookup, token, endpoint, request building, transport, status, decoding, then an empty listing, each with its own `ErrorKind` and cause; it succeeds if and only if every step does, and then yields the first key |
| Plugin.Plan | cmd/cf-vault/cf-vault.go:45-114 | empty args panic; the result is skipped if and only if the command is not `vault`; a bare `vault` is a usage error; a failed fetch is fatal with the fetch's error; a launch happens if and only if every fetch step succeeds, and then uses the first key and `args[2..]` |
| Plugin.Run | cmd/cf-vault/cf-vault.go:45-122 | the invocation returns normally if and only if the command is skipped or the launched child succeeds; every decided failure terminates with that error |
| Plugin.FailureIgnoresLaterInputs | cmd/cf-vault/cf-vault.go:46-92 | a fatal error depends only on the inputs read up to the failing check: usage, lookup, token, endpoint, request, transport and status, then body |
| Plugin.StatusCheckedBeforeDecode | cmd/cf-vault/cf-vault.go:78-86 | with a status other than 200 there is no launch, and the decision is the same for any body; once the request was sent it is `UnexpectedStatus` with that status |
| Plugin.EmptyListingNeverLaunches | cmd/cf-vault/cf-vault.go:88-90 | an empty listing never launches; with lookups, request and a 200 status all succeeding it is `NoServiceKey` for the service name |
| Plugin.FirstKeySelected | cmd/cf-vault/cf-vault.go:92 | keys after the first never change the decision |
| Plugin.LaunchForwardsTrailingArgs | cmd/cf-vault/cf-vault.go:96-110 | the child gets `len(args) - 2` arguments, each the rewrite of `args[i]` for i >= 2, so the subcommand and service name are never forwarded |
| Plugin.SubprocessOnlyOnLaunch | cmd/cf-vault/cf-vault.go:110-122 | the child process affects the outcome only when the decision is a launch |
| Plugin.SubprocessFailureIsFatal | cmd/cf-vault/cf-vault.go:119-122 | a child that fails to start or exits with an error terminates the invocation with `SubprocessFailure` |
| Plugin.EndToEndExample | cmd/cf-vault/cf-vault.go:46-114 | `vault my-vault read cf_i/secret/data` with one key whose generic path is `instances/inst-1` launches `vault read instances/inst-1/secret/data` with the key's token and address |

## Left out

- Plugin registration, `GetMetadata` and `main` (lines 126-153) are static metadata and framework wiring.
- `GetService`, `AccessToken` and `ApiEndpoint` are inputs (`Env.getService`, `Env.accessToken`, `Env.apiEndpoint`), not behaviour.
- `url.PathEscape` and `http.NewRequest` are the function inputs `Env.pathEscape` and `Env.newRequest`. `http.DefaultClient.Do` is the input `Env.response`, the answer to the one request made.
- JSON decoding is an input: the response body arrives already decoded, or as a decode error.
- `exec.Command`, the stdio wiring and `cmd.Run` are process I/O. The model stops at the launch plan, plus an abstract success or failure from `exec`.
- The `log.Printf` diagnostic naming the selected key (line 94) is output only. The process exit of `log.Fatal` is modelled as the `Terminated` outcome.
- `defer resp.Body.Close()` is resource handling. `log.Fatal` exits without running deferred calls, which the model does not observe.
- Go strings are byte strings and the model uses `seq<char>`. All three aliases are ASCII, so a byte prefix test and a character prefix test agree on them.
- Launch.LaunchEnvironment: holds for Go's `os/exec` on Unix-like systems. On Windows, `os/exec` also adds `SYSTEMROOT` from the parent when the list lacks it, and it matches variable names case-insensitively. Neither is modelled.
- Plugin.KeysRequest: states the URL's leading part and the header. The full URL shape is fixed by `KeysUrl` and used by `KeysUrlIdentifiesInstance`. The header is stated but not consumed: the response is an input that does not depend on the request.
