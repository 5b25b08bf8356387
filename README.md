# check_for_switch: backup-mode checkers, modelled in Dafny

This project models the decision logic of two Python scripts that watch an
Amazon product page and send Telegram messages.

- `tracker/tracker.py` is the multi-URL tracker:
  - `is_product_available` probes one URL through a leased proxy and runs the failure-counting backup-mode state machine;
  - `listen_for_commands` switches tracking on and off from a pub/sub channel;
  - `tracker_loop` checks every tracked URL per iteration;
  - `status` builds a reply from the flag, the URL count and the URL set. Only the reply for an empty set can actually be sent, because Flask cannot encode a set as JSON (see "## Left out");
  - the entry point reads the persisted `tracking_status`.
- `get_a_switch2.py` is the older single-URL checker:
  - `is_available` runs the same state machine around a direct request;
  - `main` stops at the first check that finds the product.

All I/O is replaced by inputs. A probe is given as a `Reply` (a status code
with the extracted page text, or an exception). In the tracker, a probe is
`NoProxy` or a reply obtained through a proxy. Sleeps and Telegram messages
are recorded in ghost logs (`sleeps`, `notifications`). Random choices are
given as `draw` numbers.

Modules:

| file | module | what it holds |
|---|---|---|
| `wrappers.dfy` | `Wrappers` | `Option` |
| `page.dfy` | `Page` | the two marker strings, Python's `in` on strings (`Contains`) and its reference definition (`Occurs`) |
| `telegram.dfy` | `Telegram` | the notifications (`Note`), the texts the code builds for them, the proof that different notifications get different built texts (what Telegram delivers can differ; see "## Left out"), and a count of how often one was sent |
| `backup_mode.dfy` | `BackupMode` | the state machine both scripts share: `Transition` for one probe, `Replay`/`Run` for a sequence of probes, and the lemmas about runs |
| `tracker.dfy` | `MultiUrlTracker` | the class `Tracker` with the globals of `tracker/tracker.py` and its operations, and the definition of one pass over the URLs |
| `single_url_checker.dfy` | `SingleUrlChecker` | the class `Checker` with the globals of `get_a_switch2.py`, `is_available` and `main` |

The state machine keeps the invariant `Consistent`: backup mode is on exactly
when the failure counter is at least the threshold 3. Every method keeps this
invariant. It is stronger than "backup mode implies the counter reached the
threshold", because the flag is also set whenever the counter reaches 3.

Points where the code behaves differently from what one might expect. The
model follows the code:

- Only status code 200 counts as success. Any other code, including other 2xx codes, counts as a failure (`tracker/tracker.py:107`, `get_a_switch2.py:72`).
- Every 200 response resets the counter and leaves backup mode before the page is read. A 200 page showing "not available", or the bot-detection page, is therefore a success for the state machine (`tracker/tracker.py:120-127`).
- The 60-second cooldown is taken only when a non-200 status enters backup mode. An exception that enters backup mode takes no cooldown (`tracker/tracker.py:116`, `tracker/tracker.py:140-150`).
- `bot_detection = True` at `tracker/tracker.py:135` follows a `return` and is never executed. The model has no such variable.
- A missing proxy skips the check entirely. It neither counts as a failure nor resets the counter (`tracker/tracker.py:98-101`).

## Model

| member | source | states |
|---|---|---|
| Telegram.TextsDistinguishNotes | tracker/tracker.py:112-124 | the message texts the code builds (the two mode alerts here, the "Available" alert at tracker/tracker.py:200 and the product alert at get_a_switch2.py:119) tell the notifications apart: two notifications have the same built text exactly when they are the same notification (what Telegram delivers can differ; see "## Left out") |
| Telegram.UrlTextsDiffer | tracker/tracker.py:200 | two built "📦 Available! {url}" texts are equal exactly when their URLs are equal |
| Page.ContainsIffOccurs | tracker/tracker.py:130 | Python's substring test `pat in text`, as computed by trying each start position, holds exactly when `pat` occurs at some index of `text` |
| BackupMode.SignalOf | tracker/tracker.py:107-127 | exactly a status of 200 is a success; any other status is a failure with cooldown; an exception is a failure without cooldown |
| BackupMode.Transition | tracker/tracker.py:107-150 | one probe: a skip changes nothing; a failure adds exactly one to the counter and turns backup on once the new count reaches 3; the "entering backup" alert is sent exactly when backup goes from off to on; a success resets to the initial state and sends "recovered" exactly when backup was on; at most one alert; the 60-second sleep exactly when a non-200 status enters backup; consistency is preserved |
| BackupMode.ReplayExtends | tracker/tracker.py:93-150 | replaying probes after earlier effects keeps all earlier notifications and sleeps as a prefix and adds exactly what a run from the same state produces |
| BackupMode.RunConsistent | tracker/tracker.py:65-67 | over any sequence of probes from a consistent state, backup mode stays on exactly when the counter is at least the threshold |
| BackupMode.RunEffectsAreAlerts | tracker/tracker.py:111-125 | the state machine sends only "entering backup" and "recovered" alerts, and sleeps only the 60-second cooldown |
| BackupMode.AlertsBalance | tracker/tracker.py:111-125 | over any run, the number of "entering backup" alerts minus the number of "recovered" alerts equals the change in the backup flag |
| BackupMode.AlertsAlternate | tracker/tracker.py:111-125 | the two alerts alternate: in every prefix of a run's notifications, the "entering backup" alerts (plus one if the run started in backup mode) exceed the "recovered" alerts by 0 or 1 |
| BackupMode.OneAlertPerExcursion | tracker/tracker.py:111-116 | between two 200 responses at most one "entering backup" alert is sent, none if backup was already on, and no "recovered" alert; backup stays on once on |
| BackupMode.CrossingThreshold | tracker/tracker.py:107-118 | from normal mode, consecutive failures count up one by one; backup mode is entered exactly when the count reaches 3, with one alert, and with the cooldown only if that third failure was a non-200 status |
| BackupMode.FourFailuresThenSuccess | tracker/tracker.py:107-127 | four non-200 responses and then a 200 send one "entering backup" and one "recovered" alert, sleep the cooldown once, and return to the initial state |
| MultiUrlTracker.ProbeSignal | tracker/tracker.py:98-101 | a missing proxy is a skip; otherwise the reply decides |
| MultiUrlTracker.ClassifyPage | tracker/tracker.py:129-138 | the page is "not available" exactly when that marker occurs; it is the bot-detection page exactly when that marker occurs and the first does not; otherwise it is in stock |
| MultiUrlTracker.ProbeAvailable | tracker/tracker.py:93-150 | a check returns true exactly for a 200 page fetched through a proxy in which neither marker occurs; such a probe is a success for the state machine |
| MultiUrlTracker.RandInt | tracker/tracker.py:201 | `random.randint(lo, hi)` lies in `[lo, hi]` and hits every value of the range for some draw |
| MultiUrlTracker.OneAlertPerAvailableUrl | tracker/tracker.py:197-200 | over a pass on distinct URLs, "📦 Available! url" is sent exactly once for each URL whose check returned true and never for any other |
| MultiUrlTracker.PassFollowsStateMachine | tracker/tracker.py:197-198 | apart from the per-URL alerts, a pass is the state machine run over its probes in order: the same final state and the same number of backup and recovery alerts |
| MultiUrlTracker.PassDelaysBounded | tracker/tracker.py:197-201 | a pass only appends to the logs; every sleep it adds is the 60-second cooldown or a per-URL delay in [2, 4] |
| MultiUrlTracker.Command | tracker/tracker.py:171-180 | a message sets the flag on exactly when its type is "message" and its data is "start", and off exactly when its type is "message" and its data is "stop"; any other message is no command |
| MultiUrlTracker.LastCommand | tracker/tracker.py:171-180 | the command that decides a message stream is the last recognised one, and there is none exactly when no message is a command |
| MultiUrlTracker.Tracker.constructor | tracker/tracker.py:208 | at start-up tracking is on exactly when the persisted status is "on"; the counter is 0, backup is off and nothing has been sent or slept |
| MultiUrlTracker.Tracker.IsProductAvailable | tracker/tracker.py:93-150 | the result is true exactly for an in-stock 200 page reached through a proxy; the new state, alerts and sleeps are those of one state-machine transition (no change at all without a proxy); consistency is kept |
| MultiUrlTracker.Tracker.HandleMessage | tracker/tracker.py:171-180 | one message updates the flag as its command says and leaves it alone otherwise |
| MultiUrlTracker.Tracker.Listen | tracker/tracker.py:166-180 | after a stream of messages the flag is the last command's value, or unchanged when there was no command |
| MultiUrlTracker.Tracker.CheckUrl | tracker/tracker.py:198-201 | checking one URL: one transition, the "Available" alert if the check returned true, then a delay in [2, 4] |
| MultiUrlTracker.Tracker.CheckUrls | tracker/tracker.py:197-201 | the loop over the URLs produces exactly the pass over them, keeping consistency |
| MultiUrlTracker.Tracker.LoopIteration | tracker/tracker.py:186-203 | with tracking off it only sleeps 2 seconds; with no URLs it switches tracking off, writes "off" and checks nothing; otherwise it performs the pass and then sleeps once for a delay in [20, 50], leaving tracking on |
| MultiUrlTracker.Tracker.Status | tracker/tracker.py:72-77 | the fields of the reply the code builds: the flag and the number of URLs, plus the URL set exactly when it is non-empty. Only the empty-set reply can be encoded; see "## Left out" |
| SingleUrlChecker.FirstTrue | get_a_switch2.py:116-121 | the position of the first true verdict: none exactly when no verdict is true; otherwise a true verdict with none before it |
| SingleUrlChecker.FirstTrueAt | get_a_switch2.py:116-121 | a true verdict with no true verdict before it is the first one |
| SingleUrlChecker.FirstAvailable | get_a_switch2.py:94-100 | the first check returning true is at the first reply that is a 200 page without the "not available" marker; none is found exactly when no reply is one |
| SingleUrlChecker.Checker.constructor | get_a_switch2.py:48-50 | the counter starts at 0 with backup off, and nothing has been sent |
| SingleUrlChecker.Checker.IsAvailable | get_a_switch2.py:66-112 | the result is true exactly for a 200 page in which the "not available" marker does not occur (there is no bot-detection test); the new state, alerts and cooldown are one state-machine transition; consistency is kept |
| SingleUrlChecker.Checker.CheckUntilAvailable | get_a_switch2.py:116-117 | checks stop right after the first one that returns true, or when the replies run out; the state and logs are the state machine replayed over exactly the checks made |
| SingleUrlChecker.Checker.WatchUntilAvailable | get_a_switch2.py:115-125 | `main` exits exactly when some check returns true, right after the first such check; the availability message is sent exactly once then and never otherwise; all other alerts and sleeps are those of the state machine run over the checks made |

## Left out

- HTTP requests (curl_cffi and requests), with their timeouts, headers, browser impersonation and TLS settings: a probe's outcome is an input.
- `get_proxy_from_pool`: the proxy-pool request and its JSON decoding are reduced to "a proxy was leased or not". When the pool replies without a `proxy` key, the address becomes "http://None"; the model does not capture this.
- BeautifulSoup's HTML-to-text extraction: the page text is an input, and the markers are searched in it.
- Exceptions raised after a 200 response has been handled, for example while parsing the page. An exception is modelled only as the outcome of the request itself.
- Telegram delivery: a message is an append to the ghost log of the texts the code builds (`tracker/tracker.py:113`, `123` and `200`; `get_a_switch2.py:119`). Delivery failures are caught and never affect state. The message goes into the query string of the request URL without encoding (`tracker/tracker.py:154-157`, `get_a_switch2.py:54-57`). An `&`, `#`, `+` or `%xx` in a tracked URL therefore cuts or changes the text that arrives. Two "Available" alerts with different URLs can then arrive with the same text, although the texts the code builds differ (`Telegram.UrlTextsDiffer`).
- Redis: the URL set is an input sequence of distinct URLs in any order: the iteration order of the Python set that `smembers` returns (`tracker/tracker.py:191`, `197`), which the model leaves open. `tracking_status` is a field. The pub/sub stream is a sequence of messages whose type and data are strings.
- Threads: the listener and the loop run concurrently in the source, but the model treats them as separate sequential calls on one object.
- The JSON encoding of the `/status` reply by Flask. `r.smembers` returns a Python `set` (`tracker/tracker.py:74`). Line 77 passes that set to `jsonify`, whose default encoder does not handle sets. For any non-empty URL set the endpoint therefore raises `TypeError` and answers with HTTP 500, so only the empty-set reply of line 76 is ever sent. `MultiUrlTracker.Tracker.Status` returns the fields the code builds and does not model this failure.
- Time and randomness: sleeps are recorded as numbers, and `random.randint` is driven by a `draw` input.
- `random.uniform(20, 50)` in `get_a_switch2.py` is a floating-point wait and is not recorded.
- The infinite loops `tracker_loop`, `listen_for_commands` and `main` are modelled as follows:
  - `tracker_loop` is modelled one iteration at a time;
  - `listen_for_commands` runs over a finite stream of messages;
  - `main` runs over a finite sequence of replies, with `exited` false when the replies run out first.
- Flask start-up, logging and `.env` loading.
- bot/telegram_bot.py is not part of this model. It holds thin Telegram handlers over Redis; its `untrack` handler is defined but never registered.
- shared/redis_client.py is not part of this model. It is a connection factory.
