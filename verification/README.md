# SecureCart fraud-detection backend: a verified model

This project models three parts of the SecureCart AI fraud-detection backend in Dafny:

- **The real-time session registry** of `WebSocketManager`. This is module `WebSocket`, in `websocket_manager.dfy`. It covers:
  - the `connected_clients` and `user_sessions` maps and the handlers that update them: connect, disconnect, ping, subscribe, live-stats request;
  - token-prefix authentication and risk-score alert levels;
  - the fraud-alert queue and its room routing, system notifications and role counting;
  - stale-session selection and the admin threshold update.

  Socket emits, room joins and leaves, and forced disconnects are appended to an event log. Time is whole seconds supplied by the caller. The central invariant (`Consistent`) says that `user_sessions` is exactly the inverse of the `user_id` column of `connected_clients` and never stores an empty set.
- **Configuration selection and validation**. This is module `Configuration`, in `config.dfy`. It covers:
  - the database and Redis URL rules and the feature flags;
  - the six `_validate_config` checks, reported in order and joined by `'; '`;
  - the development, testing and production profiles and the `get_config` factory;
  - `validate_environment_variables` and the secret-free `to_dict` view.

  The process environment is a snapshot `map<string, string>`. The dataclass sections arrive already parsed.
- **The fraud ledger**. This is module `FraudLedger` in `ledger.dfy` for the Solidity `FraudDetectionContract`, and module `BlockchainClient` in `blockchain.dfy` for its Python client:
  - the contract is a pure transition `Record` on a `Ledger` value, plus a class holding the contract storage that is proved against that transition;
  - the client covers the hex codec of transaction hashes, the result shaping of `verify_transaction_integrity`, and the branches of `record_transaction_on_blockchain` and `_record_locally`.

  SHA-256 digests, the block time, the signing account and network failures are parameters.

`common.dfy` holds the `Option`/`Result` wrappers and the string operations the backend uses, over `seq<char>`: prefix test, substring test, ASCII lower-casing, join.

## Model

| member | source | states |
|---|---|---|
| WebSocket.RoleOfToken | backend/websocket_manager.py:278-295 | The role is admin exactly for an `admin_` prefix, analyst exactly for an `analyst_` prefix without `admin_`, and always one of the three counted roles |
| WebSocket.Authenticate | backend/websocket_manager.py:259-299 | A missing auth object, a missing token and an empty token are rejected, and only those; any other token yields the fixed user of its prefix role |
| WebSocket.AuthenticationByPrefixOnly | backend/websocket_manager.py:278-295 | Two non-empty tokens with the same role prefixes authenticate as the same user |
| WebSocket.UserIdDeterminesRole | backend/websocket_manager.py:278-295 | Each role's user carries that role, and two roles share a user id only if they are the same role |
| WebSocket.AlertLevelOf | backend/websocket_manager.py:475-492 | critical iff score >= 90, high iff 70 <= score < 90, medium iff 50 <= score < 70, low iff score < 50 |
| WebSocket.AlertLevelMonotone | backend/websocket_manager.py:485-492 | A higher risk score never yields a lower alert level |
| WebSocket.ConnectedEffect | backend/websocket_manager.py:105-117 | After connect, the session is stored with the user's id, role and activity time, and it is in that user's session set, which grows by exactly this session; every other session and user is unchanged |
| WebSocket.ConnectEmits | backend/websocket_manager.py:119-144 | Connect joins `user_<id>` and `role_<role>` and sends `connection_established`, exactly these three first and in this order; a fourth and last emit, `admin_connected` to `role_admin`, follows iff the role is admin |
| WebSocket.ConnectPreservesConsistency | backend/websocket_manager.py:105-117 | Connecting a fresh session keeps the two maps mutually inverse with no empty session set |
| WebSocket.DisconnectedEffect | backend/websocket_manager.py:157-169 | An unknown session changes nothing. Otherwise only that session's client entry is removed, only its user's session set changes, losing the session, and the set is deleted when it becomes empty |
| WebSocket.DisconnectForgetsSession | backend/websocket_manager.py:157-169 | In a consistent registry a disconnected session is in neither map afterwards |
| WebSocket.DisconnectPreservesConsistency | backend/websocket_manager.py:157-169 | Disconnecting any session keeps the two maps consistent |
| WebSocket.ActiveSessionsAtMostConnections | backend/websocket_manager.py:558-570 | In a consistent registry there are at most as many users with sessions as connected sessions |
| WebSocket.RoleCountsSum | backend/websocket_manager.py:572-581 | The admin, analyst and user counts sum to the number of clients whose role is one of the three |
| WebSocket.NoRoleCountsAsUser | backend/websocket_manager.py:576-578 | A client without a role is counted as a user |
| WebSocket.AlertEmits | backend/websocket_manager.py:447-473 | An alert goes first to `fraud_alerts`; to `user_<id>` iff it has a non-empty user id; to `role_admin` iff its level is critical; nothing else is emitted |
| WebSocket.CriticalAlertRouting | backend/websocket_manager.py:447-473 | A critical alert for a user produces exactly three emits: the alerts room, the user's room, the admin room, in that order |
| WebSocket.RoleNotifications | backend/websocket_manager.py:546-548 | One `system_notification` per target role, to `role_<role>`, in list order |
| WebSocket.ThresholdDecision | backend/websocket_manager.py:634-681 | An update is accepted iff the session is connected, its role is admin and the threshold is numeric (booleans included) and within [0, 100]. The answers are "Not authenticated" for an unknown session, "Insufficient privileges" for a non-admin, "Failed to update threshold" for a payload that is not an object and "Invalid threshold value" otherwise. An accepted update carries the requested number, the given type (default `risk_score`) and the admin's username |
| WebSocket.RejectedThresholdNotifiesNobody | backend/websocket_manager.py:640-656 | A rejected update emits only to the requesting session |
| WebSocket.WebSocketManager.constructor | backend/websocket_manager.py:38-56 | Both maps, the queue and the log start empty and the registry is consistent |
| WebSocket.WebSocketManager.HandleConnect | backend/websocket_manager.py:92-149 | The session is accepted iff authentication succeeds. A rejected session leaves both maps unchanged and is disconnected. An accepted one updates the maps as `Connected` and logs `ConnectEmits`. A fresh session keeps the registry consistent |
| WebSocket.WebSocketManager.HandleDisconnect | backend/websocket_manager.py:151-186 | The maps become `Disconnected` of the old ones. The session leaves its two rooms and admins are told of an admin leaving. Consistency is preserved |
| WebSocket.WebSocketManager.HandlePing | backend/websocket_manager.py:250-257 | A known session gets its activity time refreshed and a `pong`; an unknown one changes nothing |
| WebSocket.WebSocketManager.HandleSubscribe | backend/websocket_manager.py:188-226 | An unknown session gets an error. A known one joins `fraud_alerts` and stores the preferences with defaults enabled, 70 and no false positives, or gets an error when the payload is not an object. The maps stay consistent |
| WebSocket.WebSocketManager.HandleLiveStatsRequest | backend/websocket_manager.py:228-248 | An unknown session gets an error; a known one gets the stats and then joins `live_stats` |
| WebSocket.WebSocketManager.SendFraudAlert | backend/websocket_manager.py:413-445 | The alert is queued iff its risk score compares with numbers, at the level of the score (0 when absent); otherwise the queue is unchanged |
| WebSocket.WebSocketManager.ProcessNextAlert | backend/websocket_manager.py:357-372 | The oldest alert leaves the queue and its `AlertEmits` are logged when the socket layer exists |
| WebSocket.WebSocketManager.SendSystemNotification | backend/websocket_manager.py:522-556 | Nothing is sent without a socket layer. A non-empty role list gives `RoleNotifications` of it; otherwise one broadcast to everyone |
| WebSocket.WebSocketManager.HandleThresholdUpdate | backend/websocket_manager.py:634-681 | The decision is `ThresholdDecision`. A rejection errors to the requester; an acceptance notifies `role_admin`, `role_analyst` and the requester |
| WebSocket.WebSocketManager.ClientsByRole | backend/websocket_manager.py:572-581 | Exactly the keys admin, analyst and user, each holding the number of clients with that role |
| WebSocket.WebSocketManager.ConnectedClientsInfo | backend/websocket_manager.py:558-570 | Total connections and active sessions are the two map sizes, with active <= total, and the role counts are those of `ClientsByRole` |
| WebSocket.WebSocketManager.StaleSessions | backend/websocket_manager.py:395-402 | Exactly the sessions idle for more than 600 seconds, each listed once |
| Configuration.DatabaseUrl | backend/config.py:32-42 | `DATABASE_URL` wins when set. Otherwise `FLASK_ENV == 'production'` gives a URL starting `postgresql://<username>:<password>@<host>:` and ending `:<port>/<name>`, with nothing between the host and the port suffix, and anything else the fixed sqlite file URL |
| Configuration.RedisUrl | backend/config.py:58-63 | The URL is the `redis://` scheme, then a credentials segment, then `host:port/db`. The segment is `:<password>@` when a non-empty password is set and empty otherwise |
| Configuration.RedisUrlCredentials | backend/config.py:61-63 | With a password the URL contains `:<password>@`; without one, and with no `@` in the host, it contains no `@` |
| Configuration.FeatureFlags | backend/config.py:257-268 | One flag per name, in order. A flag whose variable is set is on iff the value lower-cases to "true"; an unset one takes its default, which is on for every flag but `blockchain_integration` |
| Configuration.DefaultFeatureFlags | backend/config.py:257-268 | With no flag variables set, every flag but `blockchain_integration` is on |
| Configuration.ViolatedMembers | backend/config.py:270-294 | A message is reported iff some check holds with that message |
| Configuration.ViolatedEmptyIff | backend/config.py:270-296 | Nothing is reported iff no check holds |
| Configuration.ValidationFailsIff | backend/config.py:275-294 | Validation fails iff one of the six rules is broken: short JWT key, non-positive expiry, either threshold outside [0,1], sqlite in production, blockchain enabled without provider URL |
| Configuration.ShortJwtKeyReportedFirst | backend/config.py:275-276 | A JWT key shorter than 32 characters is always the first reported error |
| Configuration.ValidationErrorsInOrder | backend/config.py:270-294 | The reported errors are the violated checks in source order |
| Configuration.ValidateConfig | backend/config.py:270-297 | The appended error list equals `ValidationErrors`, in check order |
| Configuration.MessageListsEveryError | backend/config.py:296-297 | The raised message contains every collected error |
| Configuration.Initial | backend/config.py:221-255 | The assembled configuration has the argument or `FLASK_ENV` (default development) as environment, the parsed sections, the loaded flags and no URL override. The app name and version are `APP_NAME`/`APP_VERSION` when set and `SecureCart AI Fraud Detection`/`1.0.0` otherwise. Debug and testing are on iff their variable is set and lower-cases to `true` |
| Configuration.BaseConfig | backend/config.py:253-255 | Construction succeeds iff validation of the assembled configuration reports nothing, and then returns it unchanged; otherwise it fails with exactly the reported errors |
| Configuration.DevelopmentConfig | backend/config.py:362-370 | Fails iff the base fails, with the base's error. On success it is development with debug and SQL echo on, no rate limit and blockchain off, and every other field is the one the base built |
| Configuration.TestingConfigAsWrittenAlwaysFails | backend/config.py:372-382 | The testing profile as written always fails: with the read-only-attribute error whenever base validation passes |
| Configuration.TestingConfig | backend/config.py:372-382 | Fails iff the base fails, with the base's error. On success it is testing with the in-memory sqlite URL, a fresh database section, no rate limit, blockchain off and fraud threshold 0.5, and every other field is the one the base built |
| Configuration.ProductionConfig | backend/config.py:384-405 | Fails iff the base fails, with the base's error. On success it carries the production overrides (no debug, rate limit, 30-minute sessions, 3 login attempts, thresholds 0.8/0.6, blockchain and monitoring on) and every other field is the one the base built |
| Configuration.ProfileFor | backend/config.py:421-429 | production and testing map to their profiles; every other name maps to development |
| Configuration.GetConfig | backend/config.py:411-430 | The profile is the one named by the argument or `FLASK_ENV`, development for any other name. The factory fails iff that profile's base validation fails, with a non-empty error list. A built configuration carries the profile's name and the loaded flags. The result is exactly `ProductionConfig` for `production`, `TestingConfig` for `testing` and `DevelopmentConfig` for any other name |
| Configuration.GetConfigFallsBackToDevelopment | backend/config.py:421-430 | Any environment name other than the three known ones yields the development configuration |
| Configuration.GetConfigDefault | backend/config.py:421 | With no argument and no `FLASK_ENV`, the development configuration is built |
| Configuration.SqliteFileUrlMentionsSqlite | backend/config.py:41-42 | The default file URL mentions sqlite once lower-cased |
| Configuration.ProductionNeedsFlaskEnvOrDatabaseUrl | backend/config.py:37-42 | Without `DATABASE_URL` and with `FLASK_ENV` not production, `get_config('production')` fails and the message contains "SQLite should not be used in production" |
| Configuration.ProductionOverridesEscapeValidation | backend/config.py:388-400 | Production enables blockchain after validation, so a configuration with an empty provider URL is returned although it violates the provider rule |
| Configuration.ValidateEnvironmentVariables | backend/config.py:465-494 | Empty outside production. In production each required variable is reported iff unset/empty ('Required but not set') or, for the JWT key, shorter than 32 ('Must be at least 32 characters long'), and no other key appears |
| Configuration.ToDict | backend/config.py:326-356 | With public flag names the dictionary has no password, secret or private-key key, neither at the top level nor inside a nested section |
| Configuration.ToDictIgnoresSecrets | backend/config.py:326-356 | Changing any password, JWT key or private key leaves the dictionary unchanged |
| Configuration.FlagNamesArePublic | backend/config.py:257-268 | No feature-flag name is a secret key name |
| Configuration.FactoryConfigsShowNoSecrets | backend/config.py:326-356 | Every configuration the factory returns shows no secret in its dictionary |
| FraudLedger.Record | backend/blockchain_integration.py:600-636 | A call reverts iff the sender is not the owner or the id already exists. The reason is the owner message first, otherwise "Transaction already recorded" |
| FraudLedger.RecordThenGet | backend/blockchain_integration.py:617-626 | After a successful record the id reads back with the given hash, amount, fraud flag, risk score and block time, and exists; the hash is seen |
| FraudLedger.RecordLeavesRest | backend/blockchain_integration.py:584-585 | A record keeps the owner, leaves every other id's record unchanged, and adds only its own hash to the seen hashes |
| FraudLedger.RecordAtMostOnce | backend/blockchain_integration.py:615 | Once an id is recorded, any later call for it reverts, whoever sends it |
| FraudLedger.RecordPreservesWellFormed | backend/blockchain_integration.py:617-626 | Every stored record exists and has its hash among the seen ones, before and after a record |
| FraudLedger.ExistsIffStored | backend/blockchain_integration.py:653-661 | On a well-formed ledger an id exists iff it was stored; an unrecorded id reads as the all-zero record |
| FraudLedger.RunKeepsOwner | backend/blockchain_integration.py:596-598 | No sequence of calls changes the owner |
| FraudLedger.RunKeepsHashes | backend/blockchain_integration.py:585 | A seen hash stays seen after any sequence of calls |
| FraudLedger.RunKeepsRecords | backend/blockchain_integration.py:615-624 | A recorded id keeps its record after any sequence of calls |
| FraudLedger.RunWithoutOwner | backend/blockchain_integration.py:600-603 | Calls from senders other than the owner change nothing |
| FraudLedger.RunPreservesWellFormed | backend/blockchain_integration.py:608-636 | Any sequence of calls keeps the ledger well formed |
| FraudLedger.FraudDetectionContract.constructor | backend/blockchain_integration.py:596-598 | The deployer becomes the owner, with no records, hashes or events |
| FraudLedger.FraudDetectionContract.RecordTransaction | backend/blockchain_integration.py:608-636 | A successful call moves the storage to `Record`'s result and emits `TransactionRecorded`. A revert returns its reason and leaves storage and events unchanged. Well-formedness is kept |
| FraudLedger.FraudDetectionContract.GetTransaction | backend/blockchain_integration.py:641-662 | The stored record when the id exists, the all-zero record otherwise |
| FraudLedger.FraudDetectionContract.VerifyTransactionHash | backend/blockchain_integration.py:667-669 | True iff the hash was recorded |
| BlockchainClient.ToHex | backend/blockchain_integration.py:338-340 | Two lower-case hex digits per byte |
| BlockchainClient.FromHex | backend/blockchain_integration.py:362 | A decoded result has at most half as many bytes as the text has characters |
| BlockchainClient.FromHexToHex | backend/blockchain_integration.py:338-362 | `bytes.fromhex` inverts `.hex()` on every byte string |
| BlockchainClient.ToHexInjective | backend/blockchain_integration.py:338-340 | Different digests give different hex strings |
| BlockchainClient.VerifyTransactionIntegrity | backend/blockchain_integration.py:427-472 | Available iff there is a contract and the call succeeds. Verified iff, in addition, the exists flag is set, and exactly then it has details and no error. The details are the record's hash as hex, its amount over 100, its fraud flag, risk score and timestamp. The errors are "No blockchain connection", the exception's message, or "Transaction not found on blockchain" |
| BlockchainClient.Returned | backend/blockchain_integration.py:388-397 | The call returns None exactly for a reverted transaction |
| BlockchainClient.ContractCall | backend/blockchain_integration.py:365-371 | The call encodes iff the hash is 32 bytes and the amount in cents and the risk score are integers in the `uint256` range. It is sent by the account with the id (default ""), the hash, the cents, the fraud flag (default false) and the risk score (default 0) |
| BlockchainClient.RecordTransactionOnBlockchain | backend/blockchain_integration.py:342-397 | Without a contract, when the arguments do not encode, or on any network exception, the transaction is recorded locally under the local hash. An encoded, sent call is reverted when it runs out of gas or the contract refuses it. Otherwise it is mined, the storage moves as `recordTransaction` says, and the sent hash is returned |
| BlockchainClient.MinedRecordsCall | backend/blockchain_integration.py:360-392 | A mined call was sent by the owner with the transaction's own digest and moved the storage exactly as `recordTransaction` does |
| BlockchainClient.NoneOnlyOnRevert | backend/blockchain_integration.py:388-394 | None is returned only when the call encoded and was sent, and then ran out of gas or was refused by the contract |
| BlockchainClient.FloatRiskScoreFallsBack | backend/blockchain_integration.py:370 | A float risk score never encodes as `uint256`, so the transaction is always recorded locally |
| BlockchainClient.RecordedThenVerified | backend/blockchain_integration.py:342-464 | A transaction recorded on chain then verifies, with its hash as hex, its amount as cents over 100 and the block time |
| BlockchainClient.SecondRecordReturnsNone | backend/blockchain_integration.py:388-394 | Recording the same id again, once it is on chain, returns None and changes nothing |

## Left out

- The background threads, `time.sleep` loops, the blocking `queue.Queue` and the daemon lifecycle are concurrency. `ProcessNextAlert` is one step of the alert loop, and `StaleSessions` is the selection half of the health check. The forced disconnect of stale sessions is not modelled.
- The payloads of emits are not modelled; the log records only event names and targets. Flask-SocketIO itself, the Redis pub/sub integration (`RedisWebSocketIntegration`) and `create_websocket_handlers`' fraud-history handler are not part of this model.
- `send_transaction_update`, `_get_system_status`, `_get_live_fraud_statistics` and the mock history are constant or mock data and are left out.
- The uuid and UTC timestamps of alerts and client entries are parameters. ISO-format timestamps are integer seconds.
- Alert fields that are passed through unchanged (amount, merchant, probability, location, payment method, reasons) are not carried.
- `WebSocket.SendFraudAlert`: a risk score that is not a number is reduced to the single case `NotComparable`, which makes the level computation raise.
- `WebSocket.Authenticate`: a token that is not a string, which would make `startswith` raise, is not modelled; tokens are strings.
- Import-time `os.getenv` defaults of the configuration dataclasses, and `int()`/`float()` parse failures, are not modelled. The sections arrive already parsed in the snapshot.
- `Strings.Lower` lower-cases only ASCII letters. Python's `str.lower` also folds other scripts; the comparisons here are against ASCII literals.
- `get_flask_config` and `load_config_from_file` are not part of this model.
- backend/ml_fraud_detection.py, backend/database_models.py and backend/app.py are not part of this model.
- In the blockchain client, the following are not modelled: web3 connection and contract deployment; `get_fraud_statistics_from_blockchain`, `create_fraud_detection_rule` and `get_network_info`; gas price, nonce and signing.
- SHA-256 over the JSON encoding is a parameter: `digest` for `create_transaction_hash`, `localDigest` for `_record_locally`. `time.time()` in the local record is folded into `localDigest`.
- `BlockchainClient.RecordTransactionOnBlockchain` takes the amount as the already converted `int(amount * 100)` cents; the float conversion is not modelled. The hex string web3 reports for the sent transaction is the parameter `sentHash`.
- `BlockchainClient.RecordTransactionOnBlockchain`: a timeout while waiting for the receipt is modelled like any other exception raised before the receipt. The model does not capture a transaction that is mined after the local fallback was taken.
- Configuration.GetConfig: builds the intended testing profile (`TestingConfig`), so `get_config('testing')` succeeds in the model where the code as written raises; `TestingConfigAsWritten` models the raising version.
- WebSocket.ThresholdDecision: thresholds are exact reals. A NaN threshold, which the handler accepts because both range comparisons are false, is not modelled.
- WebSocket.AlertLevelOf: scores are exact reals. A NaN score, which the handler classifies as low, is not modelled.
- BlockchainClient.VerifyTransactionIntegrity: `amount / 100` is exact real division; the float rounding of the source is not modelled. The same holds for the amount in `BlockchainClient.RecordedThenVerified`.
- WebSocket.WebSocketManager.HandleSubscribe: an explicit JSON null for a preference is treated like a missing key and takes the default; the handler stores None.
- BlockchainClient.ContractCall: an explicit None transaction id is treated like a missing one (""); the source passes None, which the ABI encoder rejects, so the call falls back to the local record.
- BlockchainClient.RecordTransactionOnBlockchain: `create_transaction_hash` is taken not to raise (its digests are parameters). For data on which it raises, such as a `location` of None, the source raises out of the local fallback as well; the model does not capture that.
- The configuration dataclasses are taken to be definable. As written, `SecurityConfig.cors_origins` (backend/config.py:93) and `WebSocketConfig.cors_allowed_origins` (backend/config.py:153) have list defaults, which `@dataclass` rejects with `ValueError` when the class is defined, so importing the module raises before any configuration is built. The model builds the sections as if those defaults were accepted.
- `FraudLedger.TransactionRecord`: the `exists` field is named `present`, because `exists` is a Dafny keyword.

## Findings

| source | as written | input that shows it | evidently intended | confidence | as-written member | corrected member |
|---|---|---|---|---|---|---|
| backend/config.py:378-379 | `TestingConfig.__init__` assigns `self.database.url = 'sqlite:///:memory:'`, but `url` is a read-only property with no setter, so the assignment raises `AttributeError` | `get_config('testing')` with any environment in which base validation passes | the testing profile uses the in-memory sqlite database | not executed | Configuration.TestingConfigAsWritten | Configuration.TestingConfig |
