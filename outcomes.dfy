/** Values exchanged between the verifier and the network it probes.
    Every network step of the verifier (MX lookup, dial, HELO/EHLO, MAIL,
    RCPT) is represented by the outcome it reports, never by the I/O that
    produced it. */
module Outcomes {

  datatype Option<+T> = None | Some(value: T)

  /** A Go `(value, error)` pair in which exactly one side is meaningful. */
  datatype Result<+T> = Ok(value: T) | Err(error: Failure)

  /** A Go `error` value: all the core ever does with one is pass it on,
      so only its message is kept. */
  datatype Failure = Failure(message: string)

  /** The error newSMTPClient makes when the MX lookup returns no record. */
  const NoMxRecords := Failure("no MX records found")

  /** The error dialSMTP makes when its timer fires first. */
  const DialTimeout := Failure("timeout connecting to mail-exchanger")

  /** A network step that either succeeds or fails with an error. */
  datatype Outcome = Pass | Fail(error: Failure)

  /** The message the error classifier gives a rejected RCPT command, as far
      as the catch-all probe distinguishes it: the three messages it switches
      on, and everything else (another message, or no classification). */
  datatype ErrorKind = FullInbox | NotAllowed | ServerUnavailable | Unclassified

  /** The server's answer to `RCPT TO:<address>`. */
  datatype Reply = Accepted | Rejected(kind: ErrorKind)

  /** An SMTP session, identified by the position of the MX record it was
      opened to. */
  datatype Client = Client(mx: nat)

  /** The commands a probe issues on its session, in order. `Connect` stands
      for the whole MX race that opens the session. */
  datatype Command =
    | Connect
    | Hello(name: string)
    | MailFrom(sender: string)
    | RcptTo(recipient: string)
    | Close
}
