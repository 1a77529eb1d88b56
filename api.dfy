/** The three generation routes side by side: each keeps its own
    rate-limit table, and their validation chains differ only in the name
    check. */
module Api {
  import opened Wrappers
  import opened Http
  import opened PromptText
  import CoverLetterRoute
  import EmailRoute
  import MessageRoute

  /** The server's three routes, each with the rate limiter of its own
      module. */
  class Server {
    const coverLetter: CoverLetterRoute.Route
    const email: EmailRoute.Route
    const message: MessageRoute.Route

    /** Every route is in order and no two share a limiter. */
    ghost predicate Valid()
      reads this, coverLetter, email, message,
            coverLetter.limiter, email.limiter, message.limiter
    {
      && coverLetter.Valid() && email.Valid() && message.Valid()
      && coverLetter.limiter != email.limiter
      && coverLetter.limiter != message.limiter
      && email.limiter != message.limiter
    }

    constructor ()
      ensures Valid()
      ensures coverLetter.limiter.table == map[] && email.limiter.table == map[]
      ensures message.limiter.table == map[]
    {
      coverLetter := new CoverLetterRoute.Route();
      email := new EmailRoute.Route();
      message := new MessageRoute.Route();
    }

    /** A POST to the cover-letter route counts against that route's table
        only. */
    method PostCoverLetter(req: Request<CoverLetterRoute.Body>, now: int, generate: Provider)
      returns (resp: Response<CoverLetterRoute.Payload>)
      requires Valid()
      modifies coverLetter.limiter
      ensures Valid()
      ensures coverLetter.limiter.table ==
        CoverLetterRoute.Serve(old(coverLetter.limiter.table), req, now, generate).table
      ensures resp == CoverLetterRoute.Serve(old(coverLetter.limiter.table), req, now, generate).response
      ensures email.limiter.table == old(email.limiter.table)
      ensures message.limiter.table == old(message.limiter.table)
    {
      resp := coverLetter.Post(req, now, generate);
    }

    /** A POST to the email route counts against that route's table only. */
    method PostEmail(req: Request<EmailRoute.Body>, now: int, generate: Provider)
      returns (resp: Response<EmailRoute.Payload>)
      requires Valid()
      modifies email.limiter
      ensures Valid()
      ensures email.limiter.table ==
        EmailRoute.Serve(old(email.limiter.table), req, now, generate).table
      ensures resp == EmailRoute.Serve(old(email.limiter.table), req, now, generate).response
      ensures coverLetter.limiter.table == old(coverLetter.limiter.table)
      ensures message.limiter.table == old(message.limiter.table)
    {
      resp := email.Post(req, now, generate);
    }

    /** A POST to the message route counts against that route's table
        only. */
    method PostMessage(req: Request<MessageRoute.Body>, now: int, generate: Provider)
      returns (resp: Response<MessageRoute.Payload>)
      requires Valid()
      modifies message.limiter
      ensures Valid()
      ensures message.limiter.table ==
        MessageRoute.Serve(old(message.limiter.table), req, now, generate).table
      ensures resp == MessageRoute.Serve(old(message.limiter.table), req, now, generate).response
      ensures coverLetter.limiter.table == old(coverLetter.limiter.table)
      ensures email.limiter.table == old(email.limiter.table)
    {
      resp := message.Post(req, now, generate);
    }
  }

  /** The cover-letter body carrying the same résumé, job description and
      template id as an email body. */
  function CoverLetterPart(b: EmailRoute.Body): (c: CoverLetterRoute.Body)
    ensures c.resumeContent == b.resumeContent && c.jobDescription == b.jobDescription
    ensures c.templateId == b.templateId && c.additionalInstructions.None?
  {
    CoverLetterRoute.Body(b.resumeContent, b.jobDescription, b.templateId, None)
  }

  /** The email route demands everything the cover-letter route does, and a
      name besides: a body the email route accepts the cover-letter route
      accepts too, and one the two judge differently fails on the name. */
  lemma EmailChecksMore(b: EmailRoute.Body)
    ensures EmailRoute.Validate(b).None? ==> CoverLetterRoute.Validate(CoverLetterPart(b)).None?
    ensures EmailRoute.Validate(b) != CoverLetterRoute.Validate(CoverLetterPart(b)) <==>
      EmailRoute.Validate(b) == Some(EmailRoute.NAME_REQUIRED)
  {
  }

  /** The message body with the same fields as an email body, less the
      language. */
  function MessagePart(b: EmailRoute.Body): (m: MessageRoute.Body)
    ensures m.resumeContent == b.resumeContent && m.jobDescription == b.jobDescription
    ensures m.templateId == b.templateId && m.personalInfo == b.personalInfo
  {
    MessageRoute.Body(b.resumeContent, b.jobDescription, b.templateId, b.personalInfo)
  }

  /** The email and message routes accept and refuse the same bodies, in
      the same order and for the same reasons; only the wording of the name
      error differs. */
  lemma EmailAndMessageAgree(b: EmailRoute.Body)
    ensures EmailRoute.Validate(b).None? <==> MessageRoute.Validate(MessagePart(b)).None?
    ensures EmailRoute.Validate(b) == Some(EmailRoute.NAME_REQUIRED) <==>
      MessageRoute.Validate(MessagePart(b)) == Some(MessageRoute.NAME_REQUIRED)
    ensures EmailRoute.Validate(b) != Some(EmailRoute.NAME_REQUIRED) ==>
      EmailRoute.Validate(b) == MessageRoute.Validate(MessagePart(b))
  {
  }
}
