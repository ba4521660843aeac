# webmonito-rs monitoring engine in Dafny

This project models the core of webmonito-rs, a small Rust daemon that watches web
pages for changes. It keeps a table that maps each monitored URL to the SHA-1 fingerprint
of the page body last seen. A priming pass fills the table. Each later pass re-fetches
every page. When a fingerprint changes, the new one is stored first, and then every
configured webhook gets a POST and every configured address gets an email. A failed
fetch counts as "unchanged". A failed notification is logged, and the next recipient
is tried anyway.

Files, one module each:

- `wrappers.dfy`: `Option` and `Result`.
- `urls.dfy`, module `Urls` (src/urls.rs):
  - `HashList` seeds the table.
  - `Compare` fetches a page, digests it and compares the digest with the stored fingerprint.
- `emails.dfy`, module `Emails` (src/emails.rs): the address checks, the framing of the email and the hand-off to the mail transport.
- `pings.dfy`, module `Pings` (src/pings.rs): the two-field JSON object and the POST.
- `config.dfy`, module `Config` (src/config.rs):
  - the configuration record and its defaults;
  - `str::parse::<u32>` for the timeout;
  - `Config::new`, which lays command-line options over the defaults or over a file config.
- `monitor.dfy`, module `Monitoring` (src/lib.rs, `run`):
  - class `Monitor` holds the table `list` and a `trace` of observable effects: table writes, webhook calls and email attempts, in program order;
  - `PrimingPass` and `SteadyPass` are one pass each over a snapshot of the table;
  - the defaults applied while notifying, and the sleep length.

The outside world enters as function-valued parameters:

- the page fetch (`Urls.Fetch`);
- SHA-1 (`Urls.Digest`, whose results are 40 lower-case hex digits);
- lettre's address check (`Emails.IsAddress`);
- the sendmail transport (`Emails.MailTransport`);
- the HTTP client (`Pings.Transport`);
- the config file reader (`Config.FromFile`).

The iteration order of the Rust `HashMap` is the parameter `order`. It must list every key exactly once.

A pass is specified by:

- `Monitor.Pass`, which leaves `list == Updated(old(list), ...)`. That table does not depend on `order`.
- Its trace, `PassEvents`. `PassReplaysToTable` proves that replaying the trace's writes over the old table gives exactly that table.

Three points about what the Rust code does:

- The second argument of lettre 0.9's `SendableEmail::new` is the message identifier, not a `Subject:` header. The model calls it `messageId`.
- The message text is passed through as given. No template is rendered.
- Notification failures are only logged by `run` and never returned to a caller. The model records each outcome in the trace and ignores it, as the loop does.

## Model

| member | source | states |
|---|---|---|
| Urls.HashList | src/urls.rs:9-17 | the keys are exactly the distinct input URLs, each mapped to ""; at most one entry per input; exactly one per input when the URLs are distinct |
| Urls.Compare | src/urls.rs:23-40 | a fetch error is returned unchanged; `Ok(None)` exactly when the digest of the body equals the stored hash; otherwise `Ok(Some(d))` with `d` the digest of the body and different from the stored hash |
| Urls.CompareAgainstOwnDigest | src/urls.rs:33-39 | comparing the same content against the hash a compare just returned finds no change |
| Urls.CompareAgainstEmpty | src/urls.rs:33-38 | after a successful fetch, comparing against the seeded "" always reports the new digest, because a SHA-1 hex digest is never empty |
| Emails.NewEnvelope | src/emails.rs:18 | the envelope is refused exactly when there is no recipient; otherwise it holds the given sender and recipients |
| Emails.MessageIdRoundTrip | src/emails.rs:19 | `update-<url>` names the page: the URL reads back out of it, and only that identifier reads back to that URL |
| Emails.BodyRoundTrip | src/emails.rs:20 | for a given page, the body `Webpage at <url> has been updated.\n<message>` determines the message and the message determines the body |
| Emails.Compose | src/emails.rs:14-21 | the sender address is checked before the recipient; a rejected address is the error; otherwise the envelope is `(Some(from), [to])`, with exactly one recipient, and the identifier and body are the fixed framing from which page and message read back |
| Emails.Send | src/emails.rs:7-24 | an invalid-address error exactly when an address is rejected; `Ok(())` exactly when both addresses pass and the transport accepts the composed email; a transport failure is returned with its reason |
| Emails.SenderCheckedFirst | src/emails.rs:14-15 | a rejected sender decides the result before the recipient is looked at: any two recipients give the same result |
| Emails.RejectedAddressSendsNothing | src/emails.rs:14-15 | with a rejected address the transport is never consulted: any two transports give the same error, naming the first rejected address |
| Pings.Payload | src/pings.rs:11-14 | the JSON object has exactly the two keys "url" and "message"; "url" is the monitored page and "message" the text |
| Pings.PayloadInjective | src/pings.rs:11-14 | two payloads are equal exactly when their pages and their messages are equal |
| Pings.Request | src/pings.rs:11-16 | the POST goes to the webhook endpoint, not to the page, and carries the two-key payload about the page |
| Pings.Send | src/pings.rs:6-17 | the result is the transport's answer to that single POST: the response text, or the failure |
| Config.FromDefaults | src/config.rs:33-42 | verbose `Some(false)`, timeout 60, no URLs, and no emails, webhooks or sender |
| Config.Digits | src/config.rs:65 | the digit loop accepts exactly the all-digit strings whose value fits in u32, with that value |
| Config.ParseU32 | src/config.rs:65 | `Empty` exactly for ""; a text without a leading '+' parses exactly when it is all digits with a value below 2^32, and a '+' followed by at least one character exactly when the rest is; a lone '+' is `InvalidDigit`; the result is that decimal value |
| Config.ParseDecimal | src/config.rs:65 | every u32 written in decimal parses back to itself |
| Config.CliEmails | src/config.rs:84-89 | one email per command-line address, in order, with no message of its own |
| Config.CliPings | src/config.rs:101-106 | one webhook per command-line URL, in order, with no message of its own |
| Config.PushUrls | src/config.rs:69-74 | the command-line URLs are appended after the existing ones, in order |
| Config.PushEmails | src/config.rs:82-90 | the command-line addresses are appended after the existing emails, in order, without messages |
| Config.PushPings | src/config.rs:99-107 | the command-line webhooks are appended after the existing ones, in order, without messages |
| Config.Merge | src/config.rs:58-108 | an error exactly when a given timeout does not parse, with the parse error; otherwise verbose forced on by the flag, the timeout replaced when given, URLs appended, emails and webhooks appended when given (an absent list starts empty, no values leave the field alone), and the sender untouched |
| Config.OverrideSender | src/config.rs:110-113 | as written: without the flag nothing changes; with it the sender becomes the TIMEOUT argument's text; with no timeout argument the unwrap panics; no other field changes |
| Config.OverrideSenderIntended | src/config.rs:110-113 | as intended: with the flag the sender becomes the flag's own value; no other field changes |
| Config.SenderTakenFromTimeout | src/config.rs:111-113 | for `--timeout 5 --sender me@example.test`, the code as written stores "5" as the sender; the intended version stores the address |
| Config.SenderWithoutTimeoutPanics | src/config.rs:111-113 | with a config file, a sender and no timeout, the code as written fails; the intended version keeps the sender |
| Config.New | src/config.rs:51-116 | as written: a file error is returned, then a timeout parse error; success exactly when the base loads, the timeout parses and the sender flag does not come without a timeout; the result is the merge over the base, with the sender from the timeout argument |
| Config.NewIntended | src/config.rs:51-116 | as intended: success exactly when the base loads and the timeout parses; the result is the merge over the base, with the sender from the sender flag |
| Monitoring.VerboseDefault | src/lib.rs:25 | logging is on exactly when the configuration says `verbose = Some(true)` |
| Monitoring.SleepSeconds | src/lib.rs:115 | the u32 product `timeout * 60` is the intended number of seconds exactly when the timeout is at most 71582788 minutes |
| Monitoring.Updated | src/lib.rs:33-41 | a pass keeps the key set of the table |
| Monitoring.NotificationsFanOut | src/lib.rs:61-108 | on a change: one call per webhook, then one per email address, each in list order and each made whatever the earlier calls returned; a missing message is "", a missing sender is "wbmrs@localhost" |
| Monitoring.NotificationsStoreNothing | src/lib.rs:61-108 | the fan-out makes webhook and email calls only and never writes the table |
| Monitoring.FetchFailureIsQuiet | src/lib.rs:34-37 | a failed fetch stores nothing, sends nothing, and leaves the entry as it was |
| Monitoring.UnchangedIsQuiet | src/lib.rs:109-111 | content whose digest is the stored fingerprint stores nothing, sends nothing, and leaves the entry as it was |
| Monitoring.ChangeIsStoredFirst | src/lib.rs:57-61 | on a change the first effect is storing the new digest; everything after it is the fan-out (none in the priming pass) and none of it writes the table |
| Monitoring.PrimingNeverNotifies | src/lib.rs:30-43 | every effect of the priming pass is a table write: no webhook is called and no email is sent |
| Monitoring.SecondPassIsQuiet | src/lib.rs:51-112 | a second pass over unchanged pages leaves the table as it is and stores and sends nothing |
| Monitoring.ReplayPass | src/lib.rs:51-59 | the table writes recorded while visiting any prefix of the order rebuild the table with exactly those URLs refreshed |
| Monitoring.PassReplaysToTable | src/lib.rs:33-41 | over a full iteration of the keys, replaying the recorded writes gives exactly the updated table |
| Monitoring.Monitor.constructor | src/lib.rs:28 | the table is seeded with one "" entry per configured URL, and nothing has happened yet |
| Monitoring.Monitor.PrimingPass | src/lib.rs:30-43 | keys unchanged; every entry is refreshed against its snapshot value; the effects are the priming visits in iteration order |
| Monitoring.Monitor.SteadyPass | src/lib.rs:51-112 | keys unchanged; every entry is refreshed against its snapshot value; the effects are each visit's write followed by its fan-out, in iteration order |
| Monitoring.Monitor.Pass | src/lib.rs:33-42 | visiting every key of a snapshot once, in any order, leaves the updated table and appends each visit's effects in turn |
| Monitoring.Monitor.VisitEntry | src/lib.rs:52-111 | a new digest is inserted under the URL and recorded, and only then notified in a steady pass; otherwise table and trace stay as they were |
| Monitoring.Monitor.Notify | src/lib.rs:61-108 | appends exactly the fan-out: the webhook calls, then the email attempts |
| Monitoring.Monitor.PingAll | src/lib.rs:61-82 | appends one webhook call per configured webhook, in order, whatever each returns |
| Monitoring.Monitor.EmailAll | src/lib.rs:84-108 | appends one email attempt per configured address, in order, whatever each returns |

## Left out

- The GET of a page (`contents`, src/urls.rs:19-21), the POST of src/pings.rs:16 and the sendmail delivery of src/emails.rs:23 are parameters, each a pure function of its request. Each page is fetched once per pass, and each pass takes its own `fetch`. Two identical notifications in one fan-out get the same result: the same webhook with the same message, or the same address with the same message.
- SHA-1 (src/urls.rs:29-33) is an abstract function into 40-digit hex strings. Nothing depends on collision resistance, so "different content gives a different fingerprint" is not stated.
- Emails.Compose: the error `InvalidAddress(address)` carries the rejected address; lettre's `EmailAddress::new` error does not. The address is there only to make visible which check failed; `Emails.SenderCheckedFirst` states the order of the checks without it.
- lettre's address syntax, `Envelope::new` beyond its non-empty rule, and sendmail delivery are parameters or simplified. The raw message bytes are kept as text.
- `from_file` (src/config.rs:44-49): reading the file and parsing TOML are one parameter.
- src/main.rs, the clap declaration: the model takes the parsed options as the `Matches` record. clap's own checks are not modelled, e.g. a timeout or URLs being required when no config file is given.
- The endless `loop`, `thread::sleep` and `process::exit` (src/lib.rs:21-24, 45, 115): the model covers one priming pass, one steady pass and the sleep length only. `Config::new` failing ends the program, which is not modelled.
- Console output (`verbose_println`, `println!`, `eprintln!`) is not modelled. That includes the "Email sent" line at src/lib.rs:103-106, which is printed even after a failure.
- Monitoring.SleepSeconds: models the wrap-around of a release build. A debug build panics instead on a timeout above 71582788.
- Config.ParseU32: follows the current standard library, which accepts a leading '+'. A lone "+" is `InvalidDigit`; older Rust releases reported it differently.
- The HashMap iteration order is not modelled; it is the `order` parameter. The resulting table is the same for every order. The trace is in that order.

## Findings

| source | as written | input that shows it | evidently intended | confidence | as-written member | corrected member |
|---|---|---|---|---|---|---|
| src/config.rs:112 | the `--sender` flag stores `matches.value_of("timeout").unwrap()`, the timeout argument | `--timeout 5 --sender me@example.test` gives sender `Some("5")`; a config file plus `--sender` with no `--timeout` panics on the unwrap | the sender becomes the value of `--sender` | high, not executed | Config.OverrideSender | Config.OverrideSenderIntended |
