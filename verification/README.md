# WakeBridge: a verified model

WakeBridge is a web service that wakes PCs behind Yamaha routers. It logs in to a router over SSH and
sends one fixed command, `wol send`. This project models the part of the service whose correctness is
not visible in any single function, and proves it for all inputs and all interleavings.

The model has four layers.

* **Texts.** `Text`, `Mac`, `Ipv4`, `Base64`, `Fingerprint`, `Prompt`, `Forms` and `Wol` hold the canonicalising
  codecs, the form validators, the prompt test and the command printer, over all strings. A Dafny `char` is a
  Unicode scalar value; `ByteLen` is the UTF-8 length where the code measures bytes.
* **State.** `Auth` (sessions, login limiter, waiting fingerprints), `Store` (the tables with their constraints and
  cascades) and `Ssh` (one connection) are classes whose methods update fields as the code does. Each method is
  proved against a pure specification function (`AfterCheck`, `Execute`, `Connect`, `WakeExchange`, ...).
* **Handlers.** `Handlers` gives every request handler as a program counter over the shared state. A step issues one
  atomic call, namely one database call, one `AuthState` call that takes one mutex, one encryption or one
  connection, and goes on with the reply. A `World` holds the shared state, the clock, any number of handlers in
  flight and the record of every step; a run is any sequence of arrivals, steps, clock ticks and graceful restarts.
  Database failures, cipher failures, routers and random texts are chosen by the environment at each step.
  `App`, `AppSites`, `AppDevices`, `AppWake` and `AppSessions` give the site, device, wake and session handlers as
  imperative methods over the two state objects. Each method is proved to do exactly what its program counters do
  when left alone (`EndsAs`), and `AloneRuns` shows that this is one of the runs of a `World`.
* **Results about every run.** One module each: `WellFormed`, `Creation`, `Trust`, `WakeTrust`, `Retrust`,
  `Returns`, `Endpoints`, `TrustCount`, `WakeHistory`, `Operators`, `DeadTokens`, `SiteIds`, `LoginRuns` and
  `LoginHistories`, with `Limiter`, `LimiterTight` and `SessionHistory` for the two timed
  tables on their own and `Counting` for the bookkeeping.

Where the code and what is said about it differ, the model follows the code:

* The update page says that a changed endpoint has to be trusted again (`src/web.rs:664-667`). It need not be, for
  three reasons. The call that clears the key may fail, which is not looked at (`src/web.rs:640-646`). The update
  compares what it writes with the row it read earlier, so when another update has moved the site in between, moving it
  back clears nothing (`src/web.rs:616-646`). And a key may be under way while the clear happens: about to be stored, or
  waiting or being seen by a test, for somebody who can still decide to trust it (`src/web.rs:733-801`). These are all:
  `Endpoints.OldKeyReturnsExactly` states, for every moment of the service, that a key can come back without a test that
  reads the row again exactly in these cases, and one witness run shows each. `Retrust.EveryKeyIsSeenAgain` is the check
  a caller can make: with no key stored, none waiting and no test or trust under way, every later key was seen again.
* "Five failures in fifteen minutes" holds for each fixed window and one attempt at a time. Checking and recording are
  separate steps, so with k attempts in flight the bound is 4 + k, and a span of fifteen minutes can meet two windows
  (`LoginRuns.LoginBounds`); both
  bounds are reached by runs of the service (`LoginHistories.LoginBoundsAreReached`).
* Creating a site is all or nothing unless the compensating delete itself fails; it is not retried.
  `Creation.LeftWithoutCredentialExactly` states exactly which sites are then left without a credential.

## Model

| member | source | states |
|---|---|---|
| Mac.NormalizeMacExact | src/providers/yamaha.rs:242-274 | over all strings: which texts are accepted, each refused text's error, and that the result prints the six octets the text denotes when read by position, the two separators mixing freely |
| Mac.NormalizeMacIdempotent | src/providers/yamaha.rs:242-274 | the result is fixed under normalising, denotes the same octets as the input, and is 17 trimmed ASCII characters |
| Mac.NormalizeMacSameAddress | src/providers/yamaha.rs:242-274 | two accepted texts normalise equally exactly when they denote the same octets |
| Mac.CanonicalDenotes | src/providers/yamaha.rs:255-274 | a canonical text is the printed form of a non-zero unicast address |
| Mac.RenderDenotes | src/providers/yamaha.rs:269-273 | the printed form of any six octets reads back as those octets |
| Ipv4.PrintThenParse | src/providers/yamaha.rs:276-285 | for all 2^32 addresses, parsing the dotted form gives the address back |
| Ipv4.ParseThenPrint | src/providers/yamaha.rs:276-285 | each address has one accepted spelling: printing what was parsed gives the text back |
| Ipv4.NormalizeIpExact | src/providers/yamaha.rs:276-285 | the accepted language in both directions, that accepted input is merely trimmed, and exactly when an address is refused as multicast or unspecified |
| Ipv4.NormalizeIpIdempotent | src/providers/yamaha.rs:276-285 | normalising twice is normalising once |
| Base64.DecodeOfEncode | src/providers/yamaha.rs:293-296 | unpadded base64 of RFC 4648 section 4: decoding an encoding gives the bytes back |
| Base64.EncodeOfDecode | src/providers/yamaha.rs:293-296 | the decoder accepts only canonical texts (RFC 4648 section 3.5): re-encoding gives the text back |
| Base64.DecodePaddedExact | src/providers/yamaha.rs:293-296 | exactly which padded texts decode to given bytes |
| Fingerprint.ValidateFingerprintExact | src/providers/yamaha.rs:287-300 | a text yields the printed form of a digest exactly when, trimmed, it is that form bare or with one '=' |
| Fingerprint.ValidateFingerprintAccepts | src/providers/yamaha.rs:287-300 | every accepted text stands for a digest, and the output has 50 characters |
| Fingerprint.PrintedIsAccepted | src/providers/yamaha.rs:114-116 | the printed form of an observed key is accepted unchanged |
| Fingerprint.PrintInjective | src/providers/yamaha.rs:114-116 | different keys print differently, so comparing texts compares keys |
| Prompt.HasPromptExact | src/providers/yamaha.rs:200-210 | the reverse line search answers yes exactly when some '>' or '#' is followed by white space only |
| Wol.BuildWolCommand | src/providers/yamaha.rs:228-240 | the printer, with its string appended to in place, yields the joined words or the error of the first invalid part |
| Wol.WolCommandSucceeds | src/providers/yamaha.rs:222-240 | it succeeds exactly when interface, MAC and optional address are valid, so the last check cannot fail; the line is at most 91 bytes |
| Wol.LineIsSafe | src/providers/yamaha.rs:222-240 | every printed line is at most 91 bytes and passes the safety check: no line ends, no shell characters |
| Wol.LineWords | src/providers/yamaha.rs:228-240 | splitting a line on spaces gives exactly its 8 or 11 words |
| Wol.LineRoundTrip | src/providers/yamaha.rs:228-240 | reading a printed line back recovers interface, six octets and optional address |
| Wol.WolCommandRoundTrip | src/providers/yamaha.rs:228-240 | the same from the raw arguments: the command says what they mean |
| Wol.WolCommandInjective | src/providers/yamaha.rs:228-240 | two argument lists print the same command exactly when they mean the same request |
| Forms.FieldValidatorsAgree | src/web.rs:1810-1849 | field by field, the form accepts exactly the texts whose trimmed form the router side accepts |
| Forms.SiteFormAgrees | src/web.rs:1735-1770 | an accepted site form gives values every static check of the connection code accepts |
| Forms.DeviceFormAgrees | src/web.rs:1772-1797 | an accepted device form gives addresses that normalising leaves unchanged |
| Ssh.Wire.RunInteractiveCommand | src/providers/yamaha.rs:139-186 | what the shell session has typed and answers, for every peer: safety check, command and carriage return, which may be cut off by a failing write or flush, then the polling specification |
| Ssh.Wire.ConnectAndRun | src/providers/yamaha.rs:79-137 | result and everything sent, for every peer: static checks, key check, password, command, in that order |
| Ssh.Wire.Wake | src/providers/yamaha.rs:41-71 | answer and everything sent by one wake, for every peer |
| Ssh.ConnectOutcome | src/providers/yamaha.rs:79-186 | nothing is sent before the static checks and the key check pass; then at most the password and a beginning of the command line, all of it on success; with a trusted key anything sent means the peer showed it |
| Ssh.WakeOnlyTrustedPeer | src/providers/yamaha.rs:41-186 | a wake sends nothing unless the peer shows the trusted key, then at most the password and a beginning of the one command line, all of it on success, and the check repeated after the connection never fails |
| Ssh.TestReportsShownKey | src/providers/yamaha.rs:25-39 | a successful test reports the key the peer showed, and against a trusted site that is the trusted key |
| Ssh.WakeFailsOnlyExternally | src/providers/yamaha.rs:48-61 | with well-formed rows a wake fails only for want of a trusted key or through the peer or network |
| Ssh.AwaitStopsAtFirstPrompt | src/providers/yamaha.rs:162-172 | the polling loop returns the text up to the first round that shows a prompt or ends the channel |
| Auth.AuthState.LoginAllowed | src/auth.rs:75-89 | whether the client is admitted, and the window it opens or finds |
| Auth.AuthState.RecordLoginFailure | src/auth.rs:91-105 | one more failure in the current window, saturating; no other client changes |
| Auth.AuthState.ClearLoginFailures | src/auth.rs:107-109 | the client's entry is gone and every other entry stays |
| Auth.AuthState.CreateSession | src/auth.rs:111-126 | the drawn token stands for the user for eight hours; an unknown role creates nothing |
| Auth.AuthState.GetSession | src/auth.rs:128-139 | the live entry, or none; exactly an entry found expired is dropped |
| Auth.AuthState.RemoveSession | src/auth.rs:141-147 | the session and every fingerprint waiting under its token are gone, all else stays |
| Auth.AuthState.SetPendingFingerprint | src/auth.rs:149-154 | the entry for this session and site is set, all else stays |
| Auth.AuthState.TakePendingFingerprint | src/auth.rs:156-162 | the entry is handed out and removed, so at most once |
| SessionHistory.LazyRefinesEager | src/auth.rs:111-147 | for every history with a monotone clock the lazily expiring table answers as a table that drops entries exactly eight hours after creation |
| SessionHistory.DeadStaysDead | src/auth.rs:128-139 | a token that does not resolve never resolves again unless it is drawn again |
| Limiter.CounterBound | src/auth.rs:75-105 | with at most k attempts in flight, the window counter plus the attempts in flight is at most 4 + k |
| Limiter.SpanBound | src/auth.rs:75-105 | any fifteen minutes without a success hold at most 2 * (4 + k) recorded failures |
| LimiterTight.BoundsAreReached | src/auth.rs:75-105 | for every k some limiter history reaches both bounds: a window with 4 + k failures, and 2 * (4 + k) of them in fifteen minutes without a success |
| Limiter.RefusedExactly | src/auth.rs:75-89 | an attempt is refused exactly when the stored window is full and has not run out |
| Limiter.LockoutRelease | src/auth.rs:75-89 | any number of refused attempts changes nothing, and the first at or after fifteen minutes is admitted with a fresh counter |
| LoginRuns.LockoutEndsOnTime | src/web.rs:325-330 | over every run that starts locked out with no attempt in flight: every login before the window's end is refused and leaves the table as it was, and from then on, exactly, a login is admitted |
| LoginRuns.LoginsAreAHistory | src/web.rs:320-370 | the login steps of every interleaved run are a limiter history that gives the same table and the same number of attempts in flight |
| LoginRuns.HistoryIsValid | src/web.rs:325-363 | that history is one the limiter bounds apply to: monotone clock, only attempts in flight end |
| LoginRuns.LoginBounds | src/web.rs:325-363 | both limiter bounds, over every interleaved run of the service |
| LoginHistories.HistoriesAreExact | src/web.rs:320-370 | a sequence of checks, failures, successes, given-up attempts and restarts is the login history of some run with at most k in flight exactly when the limiter allows it |
| LoginHistories.LoginBoundsAreReached | src/web.rs:325-363 | for every k some run of the service reaches both limiter bounds, with no success or restart in between |
| DeadTokens.DeadTokensHaveNoEffect | src/web.rs:1651-1669 | from a state where a token does not resolve and has no handler in flight, no later step stores, takes or decides anything under it |
| DeadTokens.SessionsLastEightHours | src/auth.rs:111-147 | over every run of the service a token resolves exactly from the step that drew it until eight hours later, unless a logout or restart came in between |
| DeadTokens.ExpiredTokenIsDead | src/auth.rs:128-139 | over every run: eight hours after a moment at which a token had been drawn it does not resolve, and once its handlers have finished it has no effect any more |
| DeadTokens.UnresolvedTokensAreDead | src/auth.rs:128-162 | in every reachable state, leftover fingerprints of a token that no longer resolves can therefore never be used |
| Store.Db.FindUser | src/db.rs:189-210 | the row of that name, if any |
| Store.Db.InsertUser | src/db.rs:233-252 | a new row with a new id, or refusal of a taken name without change |
| Store.Db.UpdatePassword | src/db.rs:254-266 | only that user's hash changes, and whether there was a row |
| Store.Db.SetSetting | src/db.rs:283-296 | one key is written |
| Store.Db.GetSite | src/db.rs:325-353 | the row with that id, if any |
| Store.Db.InsertSite | src/db.rs:355-390 | a row without trusted key under an id never given out before, or refusal of a taken name |
| Store.Db.UpdateSite | src/db.rs:392-428 | the edited row with its trusted key kept, whether there was one, or refusal of a taken name |
| Store.Db.TrustSiteFingerprint | src/db.rs:430-441 | only the key of that site is set |
| Store.Db.ClearSiteFingerprint | src/db.rs:443-453 | only the key of that site is cleared |
| Store.Db.DeleteSite | src/db.rs:455-461 | the site goes with exactly its devices and its secret |
| Store.Db.GetDevice | src/db.rs:489-514 | the row with that id, joined with its site, if any |
| Store.Db.InsertDevice | src/db.rs:516-551 | a new row, or refusal when the site is missing or another device of the site has the address |
| Store.Db.UpdateDevice | src/db.rs:553-586 | the edited row, whether there was one, or the same refusals |
| Store.Db.DeleteDevice | src/db.rs:588-594 | only that row goes |
| Store.Db.UpsertSecret | src/db.rs:596-616 | the one secret of a live site is set or replaced |
| Store.Db.GetSecret | src/db.rs:618-636 | the secret of that site, if any |
| Store.Db.InsertWakeEvent | src/db.rs:638-659 | one row is appended, or refused for a user that is given but unknown |
| Store.Db.InsertAuditEvent | src/db.rs:688-710 | the same for the audit table |
| App.Server.Admitted | src/web.rs:1651-1669 | exactly which requests get in: live session, role where needed, matching CSRF text |
| App.Server.SiteCreate | src/web.rs:528-598 | exactly when a creation completes, the rows it leaves, and that a failure after the insert restores the tables when the compensating call works |
| App.Server.UndoCreation | src/web.rs:559-583 | the compensating delete takes the new row back |
| App.Server.SiteUpdate | src/web.rs:600-668 | run alone: exactly when an update completes, the edited row with its key cleared exactly when the endpoint changed and clearing worked, the credential replaced only if one was given, no other site touched |
| App.Server.SiteTrust | src/web.rs:762-818 | exactly when a key becomes trusted: the text is a spelling of the fingerprint waiting for this session and site; it is stored, used up, and nothing else changes |
| App.Server.SiteCredential | src/app.rs:50-62 | the credential opens exactly when it is stored, of the known kind and readable |
| App.CreationOutcome | src/web.rs:546-583 | storing the credential completes a creation, and deleting the new row restores the tables because nothing can refer to its id |
| App.TrustMatchesExactly | src/web.rs:777-800 | against the fingerprint of an observed key, exactly the texts that stand for that key's digest match |
| AloneRuns.AloneIsARun | src/web.rs:263-293 | a handler left alone is a run of the service, so what holds for every run holds for the handler methods |
| AloneRuns.HandlersKeepStore | src/web.rs:263-293 | whatever is asked and whatever fails, a handler run alone leaves a well-formed store well formed |
| AppSites.SiteDelete | src/web.rs:670-699 | exactly when a delete completes, what goes with the site, and that history rows stay |
| AppSites.SiteTest | src/web.rs:701-760 | exactly when a test succeeds; then the key it saw waits for this session and site, and for a trusted site it is the trusted key; the store is untouched |
| AppDevices.DeviceCreate | src/web.rs:831-884 | exactly when a device is created and the row it leaves |
| AppDevices.DeviceUpdate | src/web.rs:886-944 | exactly when a device is changed and the row it leaves |
| AppDevices.DeviceDelete | src/web.rs:946-978 | exactly when a device is deleted; only its row goes |
| AppWake.WakeHandler | src/web.rs:980-1072 | exactly when a wake is carried through, and the one history row it leaves; the page also records a refusal for want of a credential, the API (lines 1346-1438) does not |
| AppSessions.LoginSubmit | src/web.rs:320-370 | exactly when a login succeeds and the session it opens; a refused client changes only its window; a wrong name or password counts once |
| AppSessions.Logout | src/web.rs:372-386 | afterwards the token has no session and nothing waits for its decision |
| WellFormed.ExecuteKeepsKeys | src/db.rs:27-82 | every database call keeps ids within those given out and devices and secrets attached to live sites |
| WellFormed.ExecuteKeepsUnique | src/db.rs:42-53 | every database call keeps site names and (site, address) pairs unique |
| WellFormed.PrepareOk | src/web.rs:528-978 | whatever form arrives, the values a handler works with have passed the router side's checks |
| WellFormed.RunKeeps | src/web.rs:263-293 | every state of every interleaved run is well formed: rows, keys, uniqueness and what handlers carry |
| WellFormed.HardwareUniqueness | src/db.rs:42-53 | in every reachable store, two devices of a site have different six-octet addresses, each non-zero and unicast |
| WellFormed.StoredRowsGiveCommands | src/providers/yamaha.rs:85-92 | in every reachable store each device and its site pass all static checks and give a command of at most 91 bytes that means the stored values |
| WellFormed.WakesFailOnlyExternally | src/web.rs:980-1072 | every wake in flight in any run can fail only for want of a trusted key or through the peer or network |
| Creation.CreationIsAccounted | src/web.rs:546-583 | in every state of every run, a site without credential belongs to a creation still in flight or to a compensating delete that met a database failure |
| Creation.CreationIsAllOrNothing | src/web.rs:546-583 | with none of these, sites and secrets have the same ids and every device belongs to a live site |
| Creation.LeftWithoutCredentialExactly | src/web.rs:546-583 | over every run, a site no handler is creating any more is there without a credential exactly when its compensating delete met a database failure and nobody has deleted it or stored a credential for it since |
| Creation.FailedUndoLeavesSite | src/web.rs:559-583 | a run in which storing the credential and the compensating delete both fail: the handler answers with an error and the site is there without a credential |
| Trust.TrustProvenance | src/web.rs:733-801 | in every run each stored key was stored by a session that had seen it before in a successful test of the same site id, and the same for keys waiting or carried |
| WakeTrust.WakesReachOnlyTrustedKeys | src/web.rs:1008-1046 | over every run, for every wake in flight and every router: if anything at all is sent, the router showed a key that some session had seen in a successful test of this site and then stored, and only the login and a beginning of the one command is sent |
| Trust.TrustedKeyStability | src/web.rs:600-818 | once a key is stored and everything in flight for the site agrees with it, every run keeps it until an update that changes the endpoint is written or the site is deleted; failed clears and deletes and other updates do not matter |
| Retrust.OthersAreSeenAgain | src/web.rs:701-801 | over every run: a key the site has at the end was stored, about to be stored or held for somebody who could decide at the start, or it was seen in between by a successful test that read the row in between |
| Retrust.EveryKeyIsSeenAgain | src/web.rs:701-801 | from a state with no key stored, none waiting and no test or trust under way, every key the site ever comes to have was seen by such a test |
| Returns.ReturnsExactly | src/web.rs:701-801 | at every moment, for every site with its credential: some run with real routers ends with the site trusting a key unseen by any such test exactly when that key is stored, about to be stored, or held for somebody who can decide |
| Endpoints.OldKeyReturnsExactly | src/web.rs:616-646 | whatever the other handlers do: after the last step of an update that could touch the key, a key can come back unseen exactly if it was stored and the read was stale or the clear failed, or it was under way |
| Endpoints.KeySurvivesExactly | src/web.rs:616-646 | what the update by itself does: while others leave the key alone, the old key outlives a written update exactly when the row it had read already showed the written endpoint, or its clear failed |
| Endpoints.StartsAreOk | src/web.rs:600-668 | the states the next three runs start from are well formed, for every well-formed row and accepted values |
| Endpoints.FailedClearKeepsKey | src/web.rs:640-646 | a run in which the clear fails: the update completes with the new endpoint and the old key |
| Endpoints.StaleReadKeepsKey | src/web.rs:616-646 | a run without any failure: a test sees a key at the moved row and it is trusted, then the other update changes the stored endpoint and that key stays |
| Endpoints.TrustUnderWayRestoresKey | src/web.rs:783-801 | a run without any failure or stale read: a trust that had taken its key stores it after the clear, and the update completes with the new endpoint and that key |
| TrustCount.TrustsNeverExceedTests | src/auth.rs:149-162 | for each session and site, over every run: attempts to store a key plus keys carried and waiting never outnumber successful tests |
| WakeHistory.WakeHistoryIsConserved | src/web.rs:1008-1071 | for each status, over every run: history rows, lost rows and rows still due equal returned wake calls plus form wakes refused for want of a credential; audit rows balance against returned calls alone |
| Operators.OperatorFrame | src/web.rs:399-465 | in every run in which each live session is an operator's, expired entries aside, sites, devices, secrets and settings stay, and of a user only the password hash changes, which some step of that very user's own handler did |
| Operators.NoAdminLoginSuffices | src/auth.rs:111-139 | live sessions stay operators' for as long as no administrator logs in |
| SiteIds.SiteIdsAreNeverReused | src/db.rs:27-28 | over every run ids given out later are larger, and whatever waits or is carried names an id already given out, so a stale fingerprint cannot reach a newer site |

## Left out

- HTTP routing, cookies, headers, templates, notices, labels and the pages that only list rows; guards stay as the first step of each handler.
- Sockets, SSH key exchange, PTY and real time-outs: a peer's behaviour is an input, polls are finitely many rounds, and running out of rounds is the time-out.
- Argon2, AES-GCM, DPAPI and random generation: a password match, fresh tokens and an ideal cipher that may fail to seal or open are inputs.
- SQLite itself, WAL, SQL text, time stamps, listing order and id overflow at 2^63: tables are maps and sequences with the declared constraints.
- Deleting or disabling users and the command-line user tools: no handler does the former, and the latter run in another process; roles and user ids in the store are whatever the run starts with.
- Request time-outs, disconnects and crashes in mid-handler: a handler once started takes all its steps; only a graceful restart with nothing in flight is modelled.
- Message texts, their truncation to 240 characters and the summary of router output.
- The password, user and settings handlers are program counters only, without a method in the style of `App`; the run results cover them.
- The handler methods run with the clock standing still and nothing interleaved; interleaving and time are in the runs of `Handlers`.
- `AuthState` and `Db` methods take their mutex for the whole call, so the mutexes themselves are not modelled; logging out is two steps in a run because it takes two.
- Ssh.Wire.RunInteractiveCommand: the 500 ms drain is one round of reading whose end-of-channel flag is ignored, as in the code; how long a round may last is not modelled.
- Endpoints.KeySurvivesExactly: is about what one update does by itself, while the others leave the site's key alone; `Endpoints.OldKeyReturnsExactly` is about all of them.
- App.Server.SiteUpdate: is about the handler run alone; stale reads and keys under way are in `Endpoints` and `Returns`.
- Creation.CreationIsAccounted: goes one way, since a failed undo stays in the record; `Creation.LeftWithoutCredentialExactly` goes both ways.
- Returns.ReturnsExactly: assumes the site has its credential, since a test under way for a site without one may or may not get it.
- LoginHistories.HistoriesAreExact: assumes a clock starting at zero and one user who can log in.
- Trust.TrustedKeyStability: assumes every connection of the run ends as the connection code says for some peer.
- Base64 and IPv4 parsing belong to libraries; they are modelled from the documented behaviour of `STANDARD`, `STANDARD_NO_PAD` and `Ipv4Addr`.
