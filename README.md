# SMTP verification core of email-verifier, in Dafny

This project models the SMTP checks of the `email-verifier` Go library (`smtp.go`). The library decides whether a mailbox is likely deliverable without sending mail. It looks up the domain's MX records and races a dial to every MX host. On the session that wins, it sends HELO/EHLO and MAIL FROM (sections 4.1.1.1 and 4.1.1.2 of RFC 5321). It then sends one RCPT TO (section 4.1.1.3 of RFC 5321) and reads the reply into the five flags of the `SMTP` record: `HostExists`, `FullInbox`, `CatchAll`, `Deliverable` and `Disabled`.

Every network step is an oracle outcome held in a `Network` value, one per probe session:
- the MX lookup result;
- for each MX host, the direct connect, the SOCKS connect, the SMTP handshake, and whether the dial timer fires first;
- the order in which the dial goroutines finish;
- the replies to HELO and MAIL;
- the reply to RCPT for each address.

A RCPT rejection carries the kind the error classifier gives it.

Modules:
- `Outcomes` (`outcomes.dfy`): errors, step outcomes, RCPT replies, sessions and the commands a probe issues.
- `Addresses` (`addresses.dfy`): `local@domain` and the random catch-all address (`GenerateRandomEmail`, a loop over a 32-character array). Random numbers are replaced by a given sequence of in-range indices.
- `Dial` (`dial.dfy`): `dialSMTP` as a function that chooses between the attempt and the timer. `newSMTPClient` is modelled as a fold over the arrival order of the dial results. `WinnerSlot` is a class holding the shared `done` flag, the channel and the sessions closed by losing goroutines.
- `Verifier` (`verifier.dfy`):
  - the `SMTP` record as the class `Smtp`, whose fields the probes update in place;
  - `GetClient`;
  - `CheckCatchAll` and `CheckSMTPPresence` as methods that modify the record;
  - `CheckSMTP` as a method that creates a record and runs the probes.

Each method is proved against a specification function:
- `ConnectResult`, `RaceAnswer` for the race;
- `ClientSetup` for `GetClient`;
- `CatchAllVerdict`, `PresenceVerdict` for the probes;
- `RandomEmail` for the random address.

The properties of the source are stated on those functions.

## Model

| member | source | states |
|---|---|---|
| `Addresses.Address` | smtp.go:100 | `local@domain` is the local part, one `@`, then the domain unchanged |
| `Addresses.SplitAddress` | smtp.go:100 | an address whose local part has no `@` splits at its first `@` back into local part and domain |
| `Addresses.RandomLocalPart` | smtp.go:264-267 | the random local part has 32 characters, each from the alphabet |
| `Addresses.RandomEmail` | smtp.go:263-268 | the random address is 32 alphabet characters, then `@`, then the domain unchanged; its length is 33 plus the length of the domain |
| `Addresses.RandomEmailSplits` | smtp.go:268 | with an alphabet free of `@`, the random address splits back into its random local part and the domain |
| `Addresses.GenerateRandomEmail` | smtp.go:263-270 | the counted loop fills the 32-byte buffer so that the result is exactly `RandomEmail` of the draws |
| `Dial.DialSmtp` | smtp.go:217-258 | timer first gives the timeout error. A session is returned iff the timer is not first, the route chosen by the proxy setting connects, and the handshake succeeds. Otherwise the error of the first failing step is returned. |
| `Dial.DialUsesOneRoute` | smtp.go:226-230 | without a proxy URI the SOCKS route never matters; with one the direct route never matters |
| `Dial.FirstOk` | smtp.go:197-201 | the position of the first successful arrival: every earlier arrival is an error |
| `Dial.RaceAnswer` | smtp.go:196-210 | the collector returns a session iff some attempt succeeded, and then the first one received; otherwise every attempt failed and it returns the first error received (`errs[0]`) |
| `Dial.ConnectResult` | smtp.go:150-159 | a lookup error is returned unchanged; zero MX records give "no MX records found"; a session is only ever opened to one of the looked-up MX hosts |
| `Dial.ReachableHostConnects` | smtp.go:170-206 | in any arrival order, one host whose dial succeeds makes the race succeed despite other failures; if it is the only such host, its session is returned |
| `Dial.WinnerSlot.constructor` | smtp.go:161-164 | the race starts with `done` false, an empty channel and no closed or placed session |
| `Dial.WinnerSlot.Report` | smtp.go:174-191 | keeps the slot invariant (at most one session placed, `done` iff one was placed); `done` never goes back to false; an error is sent only while `done` is false; the first session is placed and sets `done`, every later one is closed; nothing else changes |
| `Dial.WinnerSlot.Receive` | smtp.go:198 | the collector takes the oldest message off the channel |
| `Dial.Race` | smtp.go:169-210 | the answer is `RaceAnswer` of the arrivals. At most one session is placed on the channel. Every successful session is either that winner or closed by its goroutine. With a winner, the collector returns after the first success; if every attempt fails, only after one error per MX record. |
| `Dial.NewSmtpClient` | smtp.go:150-211 | the result is `ConnectResult`; when the lookup fails or is empty no session is opened or closed, otherwise the race guarantees above hold |
| `Verifier.Smtp.constructor` | smtp.go:118 | a new SMTP record has all five flags false |
| `Verifier.ClientSetup` | smtp.go:25-44 | setup runs connect, HELO/EHLO with the hello name, MAIL FROM with the sender, in that order. It stops at the first failing step and returns that step's error. A session is returned iff all three succeed. |
| `Verifier.GetClient` | smtp.go:25-44 | the session and the commands issued are those of `ClientSetup` |
| `Verifier.CatchAllVerdict` | smtp.go:58-83 | the RCPT reply to the random address sets `HostExists`. `CatchAll` ends true unless the reply is a server-unavailable rejection. A full-inbox rejection sets `FullInbox`; a not-allowed rejection sets `Disabled`. `Deliverable` is untouched. |
| `Verifier.PresenceVerdict` | smtp.go:94-103 | once connected `HostExists` is set, `Deliverable` becomes true iff RCPT was accepted (or it already was), and no other flag changes |
| `Verifier.CheckCatchAll` | smtp.go:48-84 | on a setup failure the error is returned and the record is unchanged. Otherwise no error, the record becomes `CatchAllVerdict` of the reply to RCPT of the random address, and the session is closed after RCPT. |
| `Verifier.CheckSmtpPresence` | smtp.go:86-106 | on a setup failure the error is returned and the record is unchanged. Otherwise no error, accepted or not, and the record becomes `PresenceVerdict` of the reply to RCPT of `username@domain`. |
| `Verifier.CheckSmtp` | smtp.go:113-147 | disabled: no record, no error, no session. A catch-all setup error comes with the all-false record. The presence probe runs (a second session) iff the catch-all probe connected, found no catch-all and the username is non-empty. `Deliverable` is true only when `CatchAll` is false and the username is non-empty. The record returned is newly allocated. |
| `Verifier.RefusedSetupHidesHost` | smtp.go:118-124 | when the catch-all session connects but HELO/EHLO or MAIL FROM is refused, `CheckSMTP` returns the refusal's error and the all-false record, so `HostExists` stays false |

## Left out

- Sockets, DNS, SOCKS and the SMTP library (`net.LookupMX`, `net.Dial`, `socks.Dial`, `smtp.NewClient`, `Client.Hello/Mail/Rcpt/Close`, `net.SplitHostPort`) are I/O. They are oracle outcomes in `Network` and `DialOracle`.
- Goroutines, the mutex, channel capacity and `time.After` are replaced by a sequential arrival order. The timer is the flag `timerFirst`.
- The unsynchronised read of `done` by a failing goroutine (smtp.go:176) is a data race and is not modelled; the model reads `done` at the moment the goroutine finishes.
- An error goroutine that blocks forever on a full channel after the collector returned is not modelled. When the timer wins, the late session that dialSMTP's goroutine still sends (smtp.go:242) is never closed by the code; the model makes no claim about it.
- The "unexpected response dialing SMTP server" branches (smtp.go:207-208, 253-254) cannot be reached: the channels only ever carry sessions and errors. The message type has no third case.
- `ParseSMTPError`, the `Err*` message constants and the reply-code table are defined in a file that is not part of this model. A RCPT rejection carries the classification the catch-all probe switches on. `Unclassified` stands for any other message and also for a reply the classifier does not turn into an error. Errors that `GetClient` and the probes pass through `ParseSMTPError` are returned unchanged, since no code in the core inspects them.
- `domainToASCII`, `smtpPort` and the `host:port` address are not part of this model; a session is identified by the position of its MX record.
- `alphanumeric` is a parameter of the model (`alphabet`). `math/rand` is replaced by a given sequence of 32 in-range indices. The Go code builds the local part from bytes; the model uses characters, which agree for an ASCII alphabet.
- `GetClient` returns the live session together with a HELO or MAIL error, and its callers never close it. The model does not track that leak. Its command traces only show that a probe closes its session exactly when setup succeeded.
- Hello, Mail and RCPT replies are one oracle per session; they do not depend on which MX host won the race.
- The HTTP front-end in cmd/apiserver/main.go is I/O plumbing and is not part of this model.

## Where the code and the intended design differ (the model follows the code)

- The intended design closes every losing session of the race before the race returns. In the code, losers close their own sessions whenever they finish, which can be after `newSMTPClient` has returned. `Dial.Race` keeps running the remaining goroutines after the collector's answer to state this.
- The intended design leaves open which error is surfaced after a total failure. The code returns the first error received, `errs[0]`, and the model proves exactly that.
- The intended design releases each probe's session on every path. The code closes it only after a successful `GetClient`.
- The intended design sets `HostExists` whenever a connection to a mail exchanger was opened. In the code, a race that is won but followed by a refused HELO/EHLO or MAIL FROM makes `GetClient` fail (smtp.go:34-41). `CheckCatchAll` then returns (smtp.go:54-56) before it sets `HostExists` (smtp.go:62), and `CheckSMTP` returns the all-false record (smtp.go:122-124). `Verifier.RefusedSetupHidesHost` states this.
