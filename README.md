# Rocket Pool smart node: client commands, Eth 1.0 proxy startup, node key

This project models three parts of the Rocket Pool smart node in Dafny.

- **The command-line client** (`RocketPoolClient`, with `ClientConfig`, `Text`, `Quoting` and `Decimal`):
  - the client's settings and its `uint64` custom-nonce counter;
  - the `docker-compose` command that `compose` builds: the daemon-mode refusal; the checks on the selected Eth 1.0 and Eth 2.0 clients and their compatibility; the environment; the `-f` flags;
  - the gas and nonce options;
  - the API container name;
  - the version query, which takes the last whitespace-separated word of the output;
  - the commands behind `service start/pause/stop/status/logs/stats`;
  - the parameter checks of `NewClient`.

  Go's `%q` and `%d` verbs, `strings.Split/Join/Fields/TrimSpace` and `unicode.IsSpace` are modelled as functions. Each has an inverse or a characterisation, so the lemmas can say that an assembled command reads back as its parts. The reader of double-quoted words undoes `%q`'s escapes and does no shell expansion.
- **The Eth 1.0 proxy process** (`PowProxy`):
  - its seven flags and their defaults;
  - the rule that starts the WebSocket proxy only for the `infura` provider type or when a WebSocket URL is given;
  - the wait group that joins the HTTP task and the WebSocket task.

  The two tasks run one after the other, in either order, and every run is recorded as a trace of events.
- **The wallet's node account** (`NodeWallet`):
  - the derivation path `m/44'/60'/0'/0/<index>`;
  - derivation along the parsed path, which moves to the next index whenever a child step reports an invalid child;
  - the node-key cache;
  - the three public getters and their "not initialized" guard.

The cache is stated as an invariant: when it is filled, it holds exactly what a fresh derivation from index 0 gives. So `GetNodePrivateKey` returns the fresh derivation, whether or not the cache was filled.

Several things are inputs to the model rather than modelled: loading the configuration, `homedir.Expand`, `os.ExpandEnv`, the SSH connection, running a shell command, semantic-version parsing, HD-key derivation, path parsing, the elliptic-curve key functions and the transactor factory.

## Model

| member | source | states |
|---|---|---|
| RocketPoolClient.NewClient | shared/services/rocketpool/client.go:66-143 | With a host address: a missing SSH user is reported first, then a missing key path, then a failed SSH setup. It succeeds exactly when there is no host or all three are present. The new client holds the env-expanded config and daemon paths, the gas settings, the nonce and the session. |
| RocketPoolClient.Client.constructor | shared/services/rocketpool/client.go:134-141 | The fields are set as given: the config and daemon paths, the gas price and limit, the nonce (which fits a `uint64`), and the SSH session `client`, held in `remote`. |
| RocketPoolClient.Client.IncrementCustomNonce | shared/services/rocketpool/client.go:342-344 | The nonce becomes `(old + 1) mod 2^64`, which is old + 1 below the wrap. Nothing else changes. |
| RocketPoolClient.Client.CustomNonceFlag | shared/services/rocketpool/client.go:519-526 | Empty exactly when the nonce is 0. Otherwise it is `--nonce ` followed by digits that read back as the nonce. |
| RocketPoolClient.Client.GasOpts | shared/services/rocketpool/client.go:507-516 | A `--gasPrice` option when a price is set, then a `--gasLimit` option when a limit is set. Parsing the string back gives exactly those options in that order. It is empty exactly when neither is set. |
| RocketPoolClient.GasFlagsRender | shared/services/rocketpool/client.go:507-516 | Rendering the list of gas options is the price option (if any) followed by the limit option (if any). |
| RocketPoolClient.GasFlagsReadBack | shared/services/rocketpool/client.go:507-516 | The rendered gas options parse back to exactly the options set, and the string is empty exactly when neither price nor limit is set. |
| RocketPoolClient.Client.Compose | shared/services/rocketpool/client.go:379-474 | Errors come in source order: daemon path set, config not loaded, no Eth 1.0 client, no Eth 2.0 client, incompatible clients (naming the Eth 2.0 client and then the Eth 1.0 client). On success every check passed and every path expanded, and the command is the environment, `docker-compose --project-directory <dir>`, the flags and the arguments. |
| RocketPoolClient.CheckCompatibility | shared/services/rocketpool/client.go:403-417 | The early-exit scan of the `;`-separated list returns exactly `Compatible`: no restriction, or the Eth 2.0 ID is a list entry. |
| ClientConfig.CompatibleWithList | shared/services/rocketpool/client.go:404-413 | For a restriction written as a `;`-joined list of IDs, compatibility is membership of the Eth 2.0 ID in that list. |
| RocketPoolClient.AppendUserParams | shared/services/rocketpool/client.go:434-442 | Appends one `NAME="value"` per user parameter, in order. The recorded names are the old ones plus every parameter's name. |
| ClientConfig.UserPrefixStep | shared/services/rocketpool/client.go:434-437 | One pass of the user-parameter loop keeps the environment equal to the fixed part plus the assignments of the parameters seen so far, and the recorded names equal to those parameters' names. |
| ClientConfig.UserNamesMembers | shared/services/rocketpool/client.go:433-441 | A name is recorded in `paramsSet` if and only if some user parameter sets that variable. |
| RocketPoolClient.AppendDefaults | shared/services/rocketpool/client.go:445-454 | Appends, in order, the default of each client parameter whose name the user did not set and whose default is not empty. |
| RocketPoolClient.BuildEnv | shared/services/rocketpool/client.go:420-454 | The environment is the twelve fixed variables, then the Eth 1.0 and Eth 2.0 user parameters, then the two clients' still-needed defaults. |
| ClientConfig.ComposeEnvLayout | shared/services/rocketpool/client.go:420-442 | The first twelve entries are the fixed variables in source order. They are followed by every Eth 1.0 user parameter and then every Eth 2.0 user parameter, at their indices. |
| ClientConfig.DefaultEnvMembers | shared/services/rocketpool/client.go:445-454 | An assignment is among a client's defaults if and only if some parameter has an unset name and a non-empty default, and the assignment is that parameter's. |
| ClientConfig.DefaultEnvSound | shared/services/rocketpool/client.go:445-449 | Every default assignment comes from a parameter whose name was not set and whose default is not empty. |
| ClientConfig.DefaultEnvComplete | shared/services/rocketpool/client.go:445-449 | Every parameter whose name was not set and whose default is not empty contributes its assignment. |
| ClientConfig.FixedEnv | shared/services/rocketpool/client.go:420-433 | Exactly twelve assignments. The i-th assigns the i-th of `FixedNames`: project name, version, smartnode image, then the Eth 1.0 client and image, the Eth 2.0 client and beacon image, the validator client and image, and the three providers. |
| ClientConfig.UserEnv | shared/services/rocketpool/client.go:435-442 | One assignment per user parameter, the i-th being `Env="Value"` of the i-th parameter. |
| RocketPoolClient.ExpandFiles | shared/services/rocketpool/client.go:463-469 | Succeeds if and only if every file expands. The values are the expansions in order. A failure is the first file's error. |
| RocketPoolClient.ExpandFilesFirstFailure | shared/services/rocketpool/client.go:463-469 | When the files before k expand and file k does not, the expansion fails with file k's error. |
| RocketPoolClient.ExpandedFileFlags | shared/services/rocketpool/client.go:463-469 | Flags filled with the expansion of every file are exactly the `-f` flags of the expanded files. |
| RocketPoolClient.FileFlagsComplete | shared/services/rocketpool/client.go:457-469 | A flags slice filled in every slot is the base compose file's flag followed by the `-f` flags of the expanded files. |
| RocketPoolClient.BuildFileFlags | shared/services/rocketpool/client.go:457-469 | The flags slice is one longer than the file list. Slot 0 names `docker-compose.yml` in the config directory, and slot i+1 is `-f` with the i-th expanded file. It fails with the first expansion error. |
| RocketPoolClient.BaseComposeFlag | shared/services/rocketpool/client.go:462 | The base flag is written with `"%s"`, not `%q`. It equals the `%q` flag of `<dir>/docker-compose.yml` exactly when the directory holds no `"` or `\`. |
| RocketPoolClient.CommandLine | shared/services/rocketpool/client.go:472 | The command starts with the space-joined environment and ` docker-compose --project-directory `. What follows reads back as the quoted directory, then the space-joined flags and the arguments. |
| RocketPoolClient.Client.ComposeSpec | shared/services/rocketpool/client.go:379-474 | A set daemon path is refused first. Then come a config load error, a missing Eth 1.0 client, a missing Eth 2.0 client and incompatible clients (naming the Eth 2.0 client, then the Eth 1.0 client). A command is built only when both clients are selected and compatible and every path expands. It starts with the environment of those clients, and its project directory reads back as the expanded config path. |
| RocketPoolClient.FileFlags | shared/services/rocketpool/client.go:468 | One `-f "<path>"` flag per path, in order. |
| RocketPoolClient.Client.ServiceCommand | shared/services/rocketpool/client.go:242-270 | start, pause, stop and status are compose with `up -d`, `stop`, `down -v` and `ps`. |
| RocketPoolClient.Client.ServiceLogsCommand | shared/services/rocketpool/client.go:274-282 | Every service name is quoted into its slot, and compose receives `logs -f --tail <tail> <names>`. |
| RocketPoolClient.LogsArgsReadBack | shared/services/rocketpool/client.go:275-279 | The logs arguments read back as the tail count followed by exactly the given service names, in order. |
| RocketPoolClient.Client.ServiceStatsCommand | shared/services/rocketpool/client.go:286-298 | A compose error or a command error is passed on. Otherwise the command is `docker stats` followed by the trimmed `ps -q` output with each line break replaced by a space. |
| Text.Join | shared/services/rocketpool/client.go:296 | No parts join to the empty string, and the join starts with the first part. SplitJoinRoundTrip and JoinSplit relate it to Split. |
| Text.TrimSpace | shared/services/rocketpool/client.go:293 | No longer than the input, and neither starts nor ends with white space. |
| Text.TrimSpaceSlice | shared/services/rocketpool/client.go:293 | The trimmed text is a slice of the input with only white space before it and after it, and it neither starts nor ends with white space. |
| Text.IsSpaceLatin1 | shared/services/rocketpool/client.go:322 | Below U+0100, white space is exactly tab, newline, vertical tab, form feed, carriage return, space, U+0085 and U+00A0. |
| Text.JoinSplit | shared/services/rocketpool/client.go:293-296 | Joining the pieces of a split with a separator equals replacing each delimiter with that separator. |
| Text.SplitJoinRoundTrip | shared/services/rocketpool/client.go:407-413 | Splitting a join of delimiter-free parts gives back the parts. |
| Text.Split | shared/services/rocketpool/client.go:407 | There is at least one piece, and no piece contains the delimiter. |
| Text.TrimRight | shared/services/rocketpool/client.go:293 | A prefix of the input. What it removed is all white space, and it does not end in white space. |
| Text.TrimLeft | shared/services/rocketpool/client.go:293 | A suffix of the input. What it removed is all white space, and it does not start with white space. |
| RocketPoolClient.ApiContainerName | shared/services/rocketpool/client.go:494-503 | A config load error is passed on. An empty project name is an error. Otherwise the result is the project name followed by `_api`. |
| RocketPoolClient.Client.VersionCommand | shared/services/rocketpool/client.go:304-314 | With a daemon path, the command is that path, quoted so that it reads back, then ` --version`. Without one, it fails exactly when the container name does, with the same error. Otherwise it is `docker exec ` followed by the quoted container name, which reads back, then the quoted binary path and ` --version`. |
| RocketPoolClient.Client.ServiceVersion | shared/services/rocketpool/client.go:302-337 | Container-name and command errors are passed on. Output that is all white space is unparsable. On success the result is semver's normalisation of the output's final word. |
| Text.Fields | shared/services/rocketpool/client.go:322 | Every field is non-empty and has no white space. There are no fields exactly when the input is all white space. |
| Text.LastField | shared/services/rocketpool/client.go:322-326 | None exactly when the input is all white space. Otherwise it is the final word: non-empty, no white space, followed by only white space, and preceded by nothing or by white space. |
| Text.LastFieldIsFinalWord | shared/services/rocketpool/client.go:322-326 | The last of the fields is the input's final word. |
| Text.EndsWithWordAfter | shared/services/rocketpool/client.go:322-326 | A final word stays final when text ending in white space, or a longer text, is put in front. |
| Quoting.QuoteRoundTrip | shared/services/rocketpool/client.go:277 | Parsing a quoted string that has anything after it gives back the string and what follows. |
| Quoting.QuotedListRoundTrip | shared/services/rocketpool/client.go:275-279 | A space-joined list of quoted words parses back to the words. |
| Quoting.OptionsRoundTrip | shared/services/rocketpool/client.go:507-516 | A string of rendered `--name "value" ` options whose names have no spaces parses back to those options. |
| Decimal.Format | shared/services/rocketpool/client.go:523 | Non-empty digits that denote n, with no leading zero. |
| Decimal.FormatInjective | shared/services/wallet/node.go:129 | Distinct numbers print differently. |
| PowProxy.GlobalString | rocketpool-pow-proxy/rocketpool-pow-proxy.go:87 | A flag given on the command line reads as the given value. Otherwise it reads as a default declared for that flag in the flag list. |
| PowProxy.ReadSettings | rocketpool-pow-proxy/rocketpool-pow-proxy.go:87-95 | Every one of the seven settings is the value given under its flag's name, or else that flag's declared default. |
| PowProxy.DefaultInFirst | rocketpool-pow-proxy/rocketpool-pow-proxy.go:40-76 | Looking a flag up by name in the flag list gives the default of the first flag with that name. |
| PowProxy.DefaultSettings | rocketpool-pow-proxy/rocketpool-pow-proxy.go:40-76 | With no flags given, the settings are 8545, 8546, "", "", goerli, "" and infura. |
| PowProxy.StartsWebSocketFlags | rocketpool-pow-proxy/rocketpool-pow-proxy.go:94 | `StartsWebSocket` holds for the settings read from the command line exactly when no `providerType` is given, or it is given as `infura`, or a non-empty `wsProviderUrl` is given. |
| PowProxy.DefaultsStartWebSocket | rocketpool-pow-proxy/rocketpool-pow-proxy.go:94 | Under the defaults the WebSocket proxy starts. |
| PowProxy.WaitGroup.Add | rocketpool-pow-proxy/rocketpool-pow-proxy.go:83 | Adds to the counter, which never goes negative. |
| PowProxy.WaitGroup.Done | rocketpool-pow-proxy/rocketpool-pow-proxy.go:89 | Takes one from a positive counter. |
| PowProxy.WaitGroup.Wait | rocketpool-pow-proxy/rocketpool-pow-proxy.go:104 | Released exactly when the counter is zero. |
| PowProxy.RunHttpTask | rocketpool-pow-proxy/rocketpool-pow-proxy.go:86-90 | Serves HTTP with port, provider URL, network, project id and provider type, then marks one task done. |
| PowProxy.RunWsTask | rocketpool-pow-proxy/rocketpool-pow-proxy.go:93-101 | Serves WebSocket (without the provider type) when the rule holds, and otherwise logs the HTTP-only notice. Either way it then marks one task done. |
| PowProxy.Action | rocketpool-pow-proxy/rocketpool-pow-proxy.go:79-107 | The settings are read from the flags. After `Add(2)`, a `Wait` after one task still blocks, and the one after both tasks returns. The trace is the two tasks' events in the chosen order, then the join. |
| PowProxy.RunTasks | rocketpool-pow-proxy/rocketpool-pow-proxy.go:81-104 | For given settings: `Add(2)`, the two tasks in the chosen order, a `Wait` after one task that still blocks and one after both that returns. The trace is the two tasks' events, then the join. |
| PowProxy.ActionServers | rocketpool-pow-proxy/rocketpool-pow-proxy.go:86-101 | In either order, HTTP is served once with its five settings. WebSocket is served, with its four settings, if and only if `providerType == "infura"` or a WebSocket URL is set. The notice is logged if and only if not. |
| PowProxy.ActionTasksReportOnce | rocketpool-pow-proxy/rocketpool-pow-proxy.go:83-101 | In either order, each task is marked done exactly once. |
| PowProxy.ActionJoin | rocketpool-pow-proxy/rocketpool-pow-proxy.go:81-104 | The join is the fifth and last event; it does not occur earlier, and both done marks come before it. |
| PowProxy.ActionTraceShape | rocketpool-pow-proxy/rocketpool-pow-proxy.go:79-107 | The five events of each order, written out. |
| PowProxy.DoneCountAppend | rocketpool-pow-proxy/rocketpool-pow-proxy.go:83-104 | The number of done marks is additive over concatenated traces. |
| NodeWallet.NodeKeyPathReadsBack | shared/services/wallet/node.go:15 | The node key path of an index is `m/44'/60'/0'/0/` followed by digits that read back as the index. |
| NodeWallet.NodeKeyPathInjective | shared/services/wallet/node.go:129 | Different indices give different paths. |
| NodeWallet.WalkPath | shared/services/wallet/node.go:137-146 | A failure other than an invalid child is reported at a depth inside the path. An empty path reaches the master key. |
| NodeWallet.DerivedKey | shared/services/wallet/node.go:126-151 | Derivation from an index with a bounded number of moves to the next index. It fails only with a path error, an error at a depth, or exhausted retries. A path error names a path that does not parse, with the parser's message. |
| NodeWallet.DerivedKeyStep | shared/services/wallet/node.go:128-149 | A skipped index moves on to the next (or runs out of retries). An index whose walk reaches a key returns that key with the index's path. |
| NodeWallet.DerivedKeyIsFirstReached | shared/services/wallet/node.go:126-151 | A derived key comes from some index j: every index between the start and j is skipped, j's walk reaches the key, and the returned path is j's. |
| NodeWallet.FirstReachedIsDerived | shared/services/wallet/node.go:126-151 | Conversely, if the indices before j are skipped and j reaches a key, derivation returns that key and j's path. |
| NodeWallet.RetriesExhaustedMeansAllSkipped | shared/services/wallet/node.go:139-142 | Running out of retries means every index tried was skipped. |
| NodeWallet.DerivedPathIsAccountPath | shared/services/wallet/node.go:149 | The returned path is the node key path of some index. |
| NodeWallet.Wallet.GetNodeDerivedKey | shared/services/wallet/node.go:126-151 | The loop over the path, with the restart at index + 1, returns exactly the derivation specification: a parse error is a path error, and any other child error names its depth. |
| NodeWallet.Wallet.FreshNodeKey | shared/services/wallet/node.go:102-113 | On success the path is the node key path of some index. |
| NodeWallet.Wallet.NodeKeyIsFirstAccount | shared/services/wallet/node.go:103 | Uncached derivation starts at index 0: the node key's path is that of the first index from 0 that is not skipped. |
| NodeWallet.Wallet.GetNodePrivateKey | shared/services/wallet/node.go:95-122 | When the cache is filled, it returns the cached pair and leaves the cache alone. Otherwise it derives from index 0 and caches the key and path on success. A failure leaves the cache untouched, and the result always equals a fresh derivation. |
| NodeWallet.Wallet.NodeAccount | shared/services/wallet/node.go:19-48 | Not initialized is reported first. The account has an empty URL scheme, and its path is a node key path. |
| NodeWallet.Wallet.GetNodeAccount | shared/services/wallet/node.go:19-48 | The not-initialized guard comes before any key access. On success the URL path is the cached key's path and the address is that of the cached key. Whenever the node key can be derived, the call leaves it and its path cached, even if the public key then fails. When it cannot be derived, the cache is left alone. |
| NodeWallet.Wallet.NodeTransactor | shared/services/wallet/node.go:52-71 | Not initialized is reported first. The transactor carries the wallet's gas price and gas limit. |
| NodeWallet.Wallet.GetNodeAccountTransactor | shared/services/wallet/node.go:52-71 | The guard comes before any key access. The result is the corrected transactor for the node key. Whenever the node key can be derived, the call leaves it and its path cached. When it cannot be derived, the cache is left alone. |
| NodeWallet.TransactorAsWritten | shared/services/wallet/node.go:66-69 | When the factory fails, the gas write panics. |
| NodeWallet.MissingChainIDPanics | shared/services/wallet/node.go:66-69 | With no chain id the factory fails, and the code as written panics instead of returning that error. |
| NodeWallet.Transactor | shared/services/wallet/node.go:66-69 | The factory's error is returned. Otherwise the factory's transactor is returned with the wallet's gas price and limit. |
| NodeWallet.TransactorAgreesOnSuccess | shared/services/wallet/node.go:66-69 | When the factory succeeds, the corrected and as-written versions agree. |
| NodeWallet.Wallet.NodePrivateKeyBytes | shared/services/wallet/node.go:75-91 | Not initialized is reported first. It succeeds exactly when the node key can be derived, and then gives that key's bytes. |
| NodeWallet.Wallet.GetNodePrivateKeyBytes | shared/services/wallet/node.go:75-91 | The guard comes before any key access. The result is the node key's bytes, or the derivation error. Whenever the node key can be derived, the call leaves it and its path cached. When it cannot be derived, the cache is left alone. |

## Left out

- RocketPoolClient.NewClient: reading, decrypting and parsing the SSH key, choosing the known-hosts file and dialing are one `ssh` outcome. The errors they produce are one `SshSetupFailed` and are not told apart.
- Quoting.Quote: Go's `%q` also escapes control and non-printable characters (`\n`, `\t`, `\x..`, `\u....`). The model escapes only `"` and `\`, which is exact for strings without such characters.
- NodeWallet.Wallet.GetNodeDerivedKey: `getNodeDerivedKey` in node.go retries at the next index without bound. The model allows at most `retryBound` retries and then reports `RetriesExhausted`. The index is an unbounded `nat`, so the wrap-around of Go's `uint` is not modelled.
- PowProxy.Action: the two goroutines run one after the other, in either order. Interleavings inside a task and the fact that `Start` blocks while its server runs are not modelled.
- Quoting.ParseQuoted: the shell that runs the commands still expands `$`, `$(…)` and backticks inside double-quoted words, and that expansion is not modelled. The read-back lemmas describe what the shell sees only for words that contain no `$` and no backtick.
- RocketPoolClient.Client.ServiceVersion: semantic-version parsing and normalisation is a function it is given.
- `compose` loads the merged configuration itself. Here the loaded configuration (or its load error) is an input, with the selected clients already resolved. Their images are fields of the client option.
- `homedir.Expand` and `os.ExpandEnv` are functions passed in. Their output is not modelled.
- The service methods return the command that the Go code passes to `printOutput`. Running that command, and its error, are not modelled. `readOutput` is the `Runner` passed in.
- `callAPI`, `InstallService`, `getDownloader`, `LoadGlobalConfig`, `LoadUserConfig`, `SaveUserConfig`, `LoadMergedConfig`, `loadConfig`, `saveConfig`, `Close` and `NewClientFromCtx` are not modelled. They do file I/O, downloads, connection teardown or flag reading on top of the modelled parts.
- HD-key child derivation, `ParseDerivationPath`, `ECPrivKey`/`ToECDSA`, `PubkeyToAddress`, `FromECDSA` and `NewKeyedTransactorWithChainID` are functions the wallet is given. Keys are opaque byte strings.
- The failed public-key type assertion is modelled as the address function giving nothing.
- Wallet initialization (`IsInitialized`, in wallet.go) is modelled as the master key being present. wallet.go is not part of this model, and neither is how the master key is loaded or how the cache is cleared.
- The proxy servers and endpoint resolution belong to the `proxy` package, which is not part of this model. Command-line alias resolution, `app.Run` and `log.Fatal` are not modelled.

## Findings

| source | as written | input that shows it | evidently intended | confidence | as-written member | corrected member |
|---|---|---|---|---|---|---|
| shared/services/wallet/node.go:66-69 | The gas price and limit are written into the transactor before the factory's error is checked. A failing factory returns a nil transactor, so the write dereferences nil and panics. | A wallet whose `chainID` is nil: `NewKeyedTransactorWithChainID` fails with "no chain id specified". | Return the factory's error when it fails, and set the gas fields only on success. | high, not executed | NodeWallet.TransactorAsWritten (with NodeWallet.MissingChainIDPanics) | NodeWallet.Transactor |
