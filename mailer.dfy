/**
 * The outbound mail transport (nodemailer). Sending is an append to an
 * outbox of delivered messages; whether the transport fails, and with what
 * error message, is an input to each send.
 */
module Mailer {

  import opened Wrappers
  import opened Tokens

  /** A verification link: the configured prefix followed by the token. */
  datatype Link = Link(prefix: string, token: Jwt)

  datatype Content =
    | VerificationHtml(name: string, link: Link)  // the signup mail's greeting and link
    | Html(html: string)                          // a fully rendered HTML body

  datatype Mail = Mail(to: string, subject: string, content: Content)

  class Mailer {
    /** Every message the transport accepted, oldest first. */
    var outbox: seq<Mail>

    constructor ()
      ensures outbox == []
    {
      outbox := [];
    }

    /**
     * `await transporter.sendMail(m)`: `fault` is the error the transport
     * rejects with, if it does. A rejected message is not delivered.
     */
    method Send(m: Mail, fault: Option<string>) returns (error: Option<string>)
      modifies this
      ensures error == fault
      ensures outbox == if fault.None? then old(outbox) + [m] else old(outbox)
    {
      error := fault;
      if fault.None? {
        outbox := outbox + [m];
      }
    }
  }
}
