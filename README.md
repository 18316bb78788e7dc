# Wiz connector provider: reconciliation, retry and credential core

A Dafny model of the core of a Terraform provider that keeps a Wiz
"connector" in step with its declared configuration.

- **Reconciliation** (`internal/provider/resource_connector.go`, module
  `ResourceConnector`):
  - `normalizeJSON`;
  - the one-sided recursive comparison `deepCompare` and its helper
    `containsString`;
  - the symmetric change report `generateDiff`;
  - the decisions of the update handler: which desired tree it builds and
    whether it calls the update mutation;
  - the create handler's rule that the configuration is tested before
    anything is created.
- **Connector client** (`internal/client/connector.go`, module `Connector`):
  - the bounded retry loop with exponential backoff and jitter;
  - the substring classifier that decides which errors are retried;
  - the variable maps of the test, create and update requests;
  - the result extraction of `GetConnector`.
- **API client** (`internal/client/client.go`, module `Client`):
  - `NewClient`'s validation and defaults, which update the caller's `Config`
    in place;
  - the single-slot, time-based token cache of `authenticate`, a class with
    mutable `token` and `tokenExpiry` fields;
  - `RunQuery`'s authenticate-before-query guard.

Shared value types live in module `Values`:
- `Val` is a decoded `interface{}`: nil, string, map or any other value.
- `Tree` is a `map[string]interface{}`.
- `Error` is a Go error, with `%w` wrapping kept as `Wrap`.

## Modelling choices

- **Map iteration order.** Go visits map keys in an unspecified order.
  - `DeepCompare` and `GenerateDiff` pick each next key with `:|`.
  - The reported paths are specified as a multiset: the ghost fold `Changes`.
    Its independence of the key order is proved by `ChangesOverSplit` and
    `PrefixedSplit`.
  - The report's lines are specified as a set: `ExpectedDiff`.
- **JSON.** `encoding/json` is a parameter in two roles.
  - `canon: string -> Option<string>` stands for unmarshalling then
    re-marshalling a string; None means the text is not JSON.
  - `decode: string -> Result<Option<Tree>>` stands for unmarshalling into
    a map; `Ok(None)` is the text `null`, which leaves the map nil.
- **Time, randomness and cancellation** are inputs.
  - Instants are integer nanoseconds.
  - `authenticate` reads the clock twice: `now` for the cache check and
    `issuedAt` for the new expiry.
  - The retry loop takes three length-5 sequences: what each call returns,
    each jitter drawn (constrained to `[0, delay/2)`), and whether
    cancellation wins the race during each wait.
- **Remote calls** are given by their results.
  - The token endpoint exchange is an `Exchange` value.
  - The GraphQL transport result is an `Option<Error>`.
  - `TestConnectorConfig`, `CreateConnector`, `GetConnector` and
    `UpdateConnector` are given by what they return.
  - The handlers return the ordered trace of the calls they make, so
    "tested before created" and "updated only when different" are
    statements about that trace.
- **Comparison is one-sided, as the code does it.** Only the keys of
  `desired` are visited. `CurrentOnlyKeysIrrelevant` proves that top-level
  keys found only in `current` have no influence on the result, and
  `ReportedPathsDescendThroughDesired` that every reported path, at any
  depth, follows keys of `desired`.

## Model

| member | source | states |
|---|---|---|
| ResourceConnector.NormalizeJSON | internal/provider/resource_connector.go:17-30 | nil or empty input gives ""; text that does not parse is returned unchanged; otherwise the canonical re-serialisation |
| ResourceConnector.NormalizeIdempotent | internal/provider/resource_connector.go:17-30 | normalising twice equals normalising once, when the canonical form re-parses to itself |
| ResourceConnector.ContainsString | internal/provider/resource_connector.go:94-101 | true exactly when some element of the slice equals the string |
| ResourceConnector.DeepCompare | internal/provider/resource_connector.go:33-90 | the multiset of reported paths is the fold `Changes` over every key of desired; `equal` holds exactly when the list is empty, and exactly when `Changes` is empty |
| ResourceConnector.VisitKey | internal/provider/resource_connector.go:38-87 | one iteration of the loop appends exactly the key's contribution to `Changes`: nothing for an ignored key, the key when missing or different, the prefixed nested changes when both values are maps |
| ResourceConnector.AppendPrefixed | internal/provider/resource_connector.go:55-60 | appends each nested change `q` as `k.q`, and nothing else |
| ResourceConnector.ReportedPathsDescendThroughDesired | internal/provider/resource_connector.go:37-61 | every reported path is a dotted path through keys of desired, none of them ignored, at any depth; so ignored keys and current-only keys are never reported |
| ResourceConnector.MissingKeyReported | internal/provider/resource_connector.go:43-47 | a non-ignored desired key absent from current is reported by its bare name |
| ResourceConnector.IgnoredKeySkipped | internal/provider/resource_connector.go:39-41 | an ignored key contributes nothing, whatever its values |
| ResourceConnector.NestedChangesPrefixed | internal/provider/resource_connector.go:50-61 | when both values are maps, the key contributes exactly its nested changes, each as `k.q`, and never `k` itself |
| ResourceConnector.MapAgainstNonMapReported | internal/provider/resource_connector.go:50-53 | a map on one side and a non-map on the other reports the key once |
| ResourceConnector.JsonStringsCompareCanonically | internal/provider/resource_connector.go:65-80 | two strings that both parse as JSON differ exactly when their canonical forms differ |
| ResourceConnector.UnparsedStringsCompareRaw | internal/provider/resource_connector.go:65-87 | when either string does not parse, the raw texts decide |
| ResourceConnector.SelfComparisonEqual | internal/provider/resource_connector.go:33-90 | a tree compared with itself reports nothing, at any depth and for any ignore list |
| ResourceConnector.IgnoredIdMasksDifference | internal/provider/resource_connector.go:39-41 | `{id: "1", name: "n"}` against `{id: "2", name: "n"}` with `id` ignored reports nothing |
| ResourceConnector.AddedLeafReported | internal/provider/resource_connector.go:43-47 | `{x: 1}` against `{x: 1, y: 2}` reports exactly `y` |
| ResourceConnector.NestedAdditionReportedAsPath | internal/provider/resource_connector.go:53-61 | `{a: {x: 1}}` against `{a: {x: 1, y: 2}}` reports exactly `a.y` |
| ResourceConnector.CurrentOnlyKeysIrrelevant | internal/provider/resource_connector.go:36-47 | the comparison is unchanged when current is cut down to the top-level keys desired also has |
| ResourceConnector.AppendLine | internal/provider/resource_connector.go:105-126 | writing a line after the header extends the text by that line and the set of lines by that element |
| ResourceConnector.WriteDesiredSide | internal/provider/resource_connector.go:108-119 | writes a `+` line per desired-only key and a `~` line per shared key whose values differ, each once, no `-` line |
| ResourceConnector.WriteCurrentSide | internal/provider/resource_connector.go:121-126 | writes only `-` lines, one per current-only key, each once; its text is those lines rendered in order |
| ResourceConnector.GenerateDiff | internal/provider/resource_connector.go:104-129 | the text starts with `Changes:\n` and is the header followed by the written lines; the lines are the first loop's followed by the second loop's, so every `-` line comes after every `+` and `~` line; they are distinct and are exactly `ExpectedDiff`; identical trees give only the header |
| ResourceConnector.IdenticalTreesNoLines | internal/provider/resource_connector.go:104-129 | identical trees owe no line |
| ResourceConnector.ChangedAndAddedExample | internal/provider/resource_connector.go:108-126 | `{a: 1}` against `{a: 2, c: 3}` owes a `~` line for `a`, a `+` line for `c`, and nothing else |
| ResourceConnector.DesiredState | internal/provider/resource_connector.go:342-358 | the desired tree always holds the name; `authParams` and `extraConfig` come from the parsed configuration when parsed, otherwise are copied from current when present; no other key |
| ResourceConnector.UntouchedSettingsNeedNoUpdate | internal/provider/resource_connector.go:342-367 | with neither JSON setting changed and the stored name, the comparison reports nothing |
| ResourceConnector.RenameNeedsUpdate | internal/provider/resource_connector.go:342-367 | a name that compares as different from the stored one (missing, or different under the leaf rule) is reported, so the update is made |
| ResourceConnector.SameJsonRenameNotSent | internal/provider/resource_connector.go:65-80 | a new name that parses as the same JSON value as the stored one, with nothing else changed, reports nothing, so no update is sent |
| ResourceConnector.IgnoredNestedKeyNotSent | internal/provider/resource_connector.go:53-55 | new `auth_params` that differ from the stored ones only under ignored keys (`type`, `id`, …) report nothing, because the ignore list is applied at every depth, so no update is sent |
| ResourceConnector.ClearedExtraConfigNotSent | internal/provider/resource_connector.go:333-358 | emptying `extra_config` with name and `auth_params` unchanged reports nothing, so no update is sent |
| ResourceConnector.Update | internal/provider/resource_connector.go:315-378 | the connector is fetched first; a fetch or parse error stops with its wrapped message; the update mutation with the patch variables is called exactly when the comparison against the ignore list reports a change, and its error is wrapped |
| ResourceConnector.Create | internal/provider/resource_connector.go:203-232 | parse errors stop before any call; the test runs first; the connector is created only right after a test that returned true without error; each failure carries its own message; the id is stored only on success |
| Connector.Contains | internal/client/connector.go:411-423 | true exactly when the substring occurs at some offset |
| Connector.IsRetryableError | internal/client/connector.go:409-427 | true exactly when the message contains one of the five markers |
| Connector.RetryWithBackoff | internal/client/connector.go:376-405 | at most 5 calls, none after nil; a terminal error is returned at once with no wait; the wait after attempt i is 2^i s plus the jitter, within [2^i s, 1.5·2^i s); cancellation returns the context error; after five retryable failures, "maximum retries exceeded" wraps the last one |
| Connector.RecoversOnFifthAttempt | internal/client/connector.go:381-395 | four transient failures and then success: nil after five calls and four waits |
| Connector.TerminalErrorNotRetried | internal/client/connector.go:387-390 | a terminal first error: one call, no wait, that error |
| Connector.TestConnectorVariables | internal/client/connector.go:62-73 | variables hold type and authParams (nil sent as null), extraConfig only when non-nil, id only when non-empty |
| Connector.BuildTestVariables | internal/client/connector.go:62-73 | the map built insertion by insertion is the one above |
| Connector.CreateConnectorVariables | internal/client/connector.go:108-120 | one `input` with name, type and authParams, and extraConfig only when non-nil |
| Connector.BuildCreateVariables | internal/client/connector.go:108-120 | the map built insertion by insertion is the one above |
| Connector.UpdateConnectorVariables | internal/client/connector.go:343-361 | `input` holds exactly id and patch; the patch always holds name, and authParams or extraConfig exactly when non-nil |
| Connector.BuildUpdateVariables | internal/client/connector.go:343-361 | the map built insertion by insertion is the one above |
| Connector.ExtractConnector | internal/client/connector.go:311-323 | "connector not found: id" when the key is missing or nil; "invalid connector data format" when it is not a map; otherwise that map |
| Connector.GetConnector | internal/client/connector.go:303-323 | a query error is wrapped as "error getting connector"; otherwise the extraction above |
| Values.MapOrNull | internal/client/connector.go:62-65 | a nil map argument is sent as null, a present one as that map |
| Client.ExchangeError | internal/client/client.go:74-100 | one wrapped error per failing stage (request, transport, non-200 status with its code, body read, body parse); none exactly when the status is 200 and the body decodes |
| Client.Config.constructor | internal/client/client.go:17-22 | the four settings as given |
| Client.Client.constructor | internal/client/client.go:51-56 | a client bound to the configuration and its API URL, with no token |
| Client.Client.Authenticate | internal/client/client.go:60-106 | a non-empty unexpired token: no exchange and nothing changes; otherwise one client-credentials request to the token URL, which exists exactly when building it did not fail; success stores the token and issue time plus lifetime; every failure leaves token and expiry untouched |
| Client.Client.RunQuery | internal/client/client.go:109-130 | an authentication error is returned with no query sent; otherwise the query is sent with "Bearer " and the current token, and its result is returned; the token slot is kept on a cache hit, replaced by a successful exchange and untouched by a failed one |
| Client.CachedQueryUsesStoredToken | internal/client/client.go:62-64 | while the stored token is valid, a query carries that token and leaves the slot unchanged |
| Client.NewClient | internal/client/client.go:38-57 | an empty client id or secret fails and changes nothing; otherwise empty URLs become the defaults, set ones stay, and the client uses the resulting API URL with no token |
| Client.TokenReusedUntilExpiry | internal/client/client.go:62-103 | from an absent or expired token one exchange stores the new token, and a later call inside its lifetime makes no exchange |

## Left out

- Reading a connector back into Terraform state (`resourceConnectorRead`) is not modelled. This includes the read that ends the update handler. It is SDK plumbing.
- Deleting a connector, the resource schema, the provider configuration and the data source are not modelled. They hold no logic beyond remote calls and schema wiring.
- `fmt.Printf` logging is left out. The update handler builds the diff only to print it, so `Update` does not call `GenerateDiff`.
- ResourceConnector.GenerateDiff: `%v` formatting is the parameter `show`. The order of lines within each of the two groups (`+`/`~`, then `-`) is not specified, because it follows Go's map iteration.
- ResourceConnector.DeepCompare: the order of the changed paths is not specified, for the same reason; only their multiset is.
- ResourceConnector.NormalizeJSON: takes nil or a string only. A value of any other type makes the Go type assertion panic, and that path is not modelled.
- JSON parsing and marshalling are the parameters `canon` and `decode`, whose behaviour is not modelled. `NormalizeIdempotent` assumes that a canonical form re-parses to itself.
- Connector.RetryWithBackoff: `rand.Int63n`, `time.After` and `ctx.Done()` are inputs. When a wait's timer and cancellation are both ready, Go's `select` picks one at random; the `cancelled` input decides.
- Connector.GetConnector: the retried query is given by its final error and decoded response. `json.Unmarshal` reusing one response map across attempts is not modelled.
- Retrying inside the update mutation is folded into its error result. Client-side wrapping of the test and create errors ("error testing connector config", "error creating connector") is folded into their results too.
- Client.Client.Authenticate: `time.Now` is the inputs `now` and `issuedAt`, on an unbounded integer axis. The int64 overflow of `time.Duration` for huge lifetimes is not modelled.
- Client.Client.Authenticate: Go's zero `time.Time` is taken as instant 0.
- HTTP and GraphQL are not modelled at the wire level: headers, form encoding and query text. The token request is modelled as its URL and form fields.
- Concurrency is not modelled. The client's token fields are not synchronised in Go either.

## Notes on the code

- Only status 200 is accepted from the token endpoint. Other 2xx statuses also fail, with "error authenticating, status code: N". The model follows the code.
- `name` is compared like any other string: when the old and new names both parse as JSON with the same canonical form (`"1"` and `"1.0"`), the rename is no change and no update is sent (`SameJsonRenameNotSent`).
- The same ignore list is applied inside nested maps. A change to `auth_params` or `extra_config` that touches only keys named `id`, `type`, `status`, `lastActivity`, `outpost` or `config` sends no update, although GCP-style credentials carry a `type` field (`IgnoredNestedKeyNotSent`).
- `extra_config` changed to the empty string is never parsed. The stored value is copied into the desired tree, so clearing the setting alone sends no update (`ClearedExtraConfigNotSent`).
