# mortigilo health probes — a Dafny model

mortigilo is a sidecar that reports the state of a qBittorrent daemon to a
container orchestrator through two HTTP endpoints. This project models its
decision logic, all of it in `src/main.rs`:

- **Liveness** (`GET /healthz`). Ask the daemon for the "resumed" torrent list.
  A failed query answers 503 and an empty list answers 204; either way the
  second query is never sent. Otherwise ask for the "stalled" list. A failed
  query answers 503, and 503 also holds when stalled ≥ resumed (so equal counts
  are unhealthy). Otherwise the answer is 204.
- **Readiness** (`GET /readyz`). Ask for the transfer information. A connection
  status of `Connected` or `Firewalled` answers 204. A query error, or any other
  status (including ones the model does not name), answers 503.
- **Configuration** (`Config::from_env`, `env_or_default`). Read the
  environment. `QBITTORRENT_PASSWORD` is required. `QBITTORRENT_HOST` and
  `QBITTORRENT_USERNAME` default to `http://localhost:8080` and `admin`. `PORT`
  must parse as a nonzero `u16`, otherwise 9000 is used. `ADDRESS` must parse as
  an IP literal, otherwise 0.0.0.0 is used.

Layout:

- `wrappers.dfy`: `Result` and `Option`.
- `num.dfy`: `u8`/`u16` and a model of Rust's `str::parse::<u16>`. The model
  takes an optional leading `+`, then ASCII digits accumulated left to right
  with checked arithmetic. It reports `Empty`, `InvalidDigit` or `PosOverflow`.
  It is proved equal to a reference reading stated on the whole text, and proved
  to invert decimal formatting.
- `qbit.dfy`: the daemon's data (filters, torrents, connection status, transfer
  information) and `FakeQbit`. `FakeQbit` is a client class that gives fixed
  answers and appends every query it receives to its `issued` field. This makes
  "the second query is never issued" something a contract can state.
- `probes.dfy`: `Liveness` and `Readiness` are the verdict functions.
  `Healthz` and `Readyz` are methods that query a `FakeQbit` step by step, as
  the handlers do. The remaining members are lemmas and three client scenarios.
- `config.dfy`: environment resolution. The environment is a
  `map<string, string>` that holds the variables that are set. The IP-literal
  parser is a parameter `parseIp: string -> Option<IpAddr>`.

The code only requires `QBITTORRENT_PASSWORD` to be set. An empty value is
stored as given (`EmptyPasswordAccepted`). The client returns torrent lists and
the liveness probe compares their lengths, so the model's responses are lists.

## Model

| member | source | states |
|---|---|---|
| `Num.ParseU16` | src/main.rs:147 | `parse::<u16>` fails with `Empty` exactly on the empty text. A lone `+` is `InvalidDigit`. Success happens exactly when the text after an optional `+` is a non-empty run of ASCII digits with value ≤ 65535, and the result is that value. Every other text gives the error of the reference `Reading`. |
| `Num.AccumulateReads` | src/main.rs:147 | Checked left-to-right digit accumulation gives the same result as the whole-text reference reading. Overflow is reported when the leading digit run exceeds 65535. Otherwise a non-digit gives `InvalidDigit`. |
| `Num.FormatDecimal` | src/main.rs:18-19 | Not program code: a proof device relating the constants `DEFAULT_PORT_STR` and `DEFAULT_PORT`. The decimal rendering of a number is non-empty and all digits, denotes the number, and has no leading zero. |
| `Num.ParseFormatRoundTrip` | src/main.rs:18-19 | Parsing the decimal text of any `u16` gives that value back. |
| `Qbit.FakeQbit.GetTorrentList` | src/main.rs:54-59 | A torrent-list query returns the canned answer for its filter and appends exactly that query to the record of issued queries. |
| `Qbit.FakeQbit.GetTransferInfo` | src/main.rs:104 | A transfer-information query returns the canned answer and appends exactly that query to the record. |
| `Probes.Liveness` | src/main.rs:53-100 | Liveness verdict: a failed first query gives 503. An empty first list gives 204. With N > 0 resumed, a failed second query gives 503, and otherwise the result is 503 exactly when stalled ≥ N (inclusive). |
| `Probes.LivenessQueries` | src/main.rs:54-77 | The resumed query always comes first. The stalled query is issued, and comes second, exactly when the first query succeeded with a non-empty list. At most two queries are issued. |
| `Probes.Healthz` | src/main.rs:53-100 | The handler answers the `Liveness` verdict of the client's answers and adds exactly `LivenessQueries` to the client's query record, in order. |
| `Probes.Readiness` | src/main.rs:103-122 | The answer is 204 exactly when the query succeeds and the status is `Connected` or `Firewalled`. Every error and every other status gives 503. |
| `Probes.Readyz` | src/main.rs:103-122 | The handler answers the `Readiness` verdict and issues exactly one transfer-information query. |
| `Probes.LivenessIgnoresUnissuedQuery` | src/main.rs:61-69 | When the stalled query is not issued, its answer cannot affect the verdict. |
| `Probes.MoreStalledNeverHealthier` | src/main.rs:79-86 | An unhealthy verdict stays unhealthy when the stalled count grows. |
| `Probes.EqualCountsScenario` | src/main.rs:79-86 | With a client holding 10 resumed and 10 stalled torrents, `/healthz` answers 503 after issuing both queries. |
| `Probes.UnreachableDaemonScenario` | src/main.rs:66-69 | With a failing first query, `/healthz` answers 503 and issues only the resumed query. |
| `Probes.FirewalledScenario` | src/main.rs:113 | With a client reporting `Firewalled`, `/readyz` answers 204. |
| `ConfigResolver.EnvOrDefault` | src/main.rs:180-191 | Returns the variable's value unchanged when it is set, and the default when it is not. |
| `ConfigResolver.DefaultPortTextParses` | src/main.rs:18-19 | The default port text `"9000"` parses to the default port 9000. |
| `ConfigResolver.ResolvePort` | src/main.rs:147-160 | The port is always in 1..65535. It is the parsed value of `PORT` when that parses as a non-zero `u16`. It is 9000 otherwise, including when `PORT` is unset. |
| `ConfigResolver.ResolveAddress` | src/main.rs:162-168 | The address is the parsed `ADDRESS` when it parses, and 0.0.0.0 when it does not. When `ADDRESS` is unset and the parser reads `"0.0.0.0"` as 0.0.0.0, the result is 0.0.0.0. Resolution never fails. |
| `ConfigResolver.FromEnv` | src/main.rs:135-177 | Fails, with the missing-password error, exactly when `QBITTORRENT_PASSWORD` is unset. Otherwise the password is stored verbatim, host and username are the variables or their defaults, the port is resolved and in 1..65535, and the address is resolved. |
| `ConfigResolver.EmptyPasswordAccepted` | src/main.rs:139-141 | An empty password that is set gives a configuration with that empty password. |
| `ConfigResolver.ZeroPortFallsBack` | src/main.rs:148-155 | A zero port, written as any number of zeros, resolves to 9000. |
| `ConfigResolver.FromEnvReadsOnlyItsVariables` | src/main.rs:136-168 | Two environments that agree on the five variables give the same result. |

## Left out

- `main` (src/main.rs:26-50) is not modelled: subscriber setup, routing, socket binding and serving are server bootstrap and I/O.
- The qBittorrent client library is replaced by `FakeQbit`, whose canned answers stand for network, session and JSON handling.
- The async execution and `Arc` sharing are not modelled. Each handler runs sequentially, and concurrent requests share nothing mutable.
- No query timeouts are modelled. The source imposes none beyond the client library's own.
- Logging (`info!`, `warn!`, `error!`) is not modelled. It has no effect on any result, so the error kind of a rejected port is computed but never shown, and the abstract IP parser returns no error value at all.
- IP-literal parsing is the standard library's. It is a parameter of `ResolveAddress` and `FromEnv`, not a definition.
- ResolveAddress: for the unset case, 0.0.0.0 is proved only under the assumption that the abstract parser reads `"0.0.0.0"` as 0.0.0.0. The standard library's parser does.
- `env::var` failing on a value that is not valid Unicode is not modelled. A variable is either set to a string or unset.
- Torrent filters other than `Resumed` and `Stalled` are not modelled, nor any field of a torrent (a torrent carries no data in the model) or of the transfer information other than its connection status. The probes read nothing else.
