/** The POST handler of the email route: rate limiting, validation
    (including the sender's name), prompting the provider, and the shape of
    the success response. */
module EmailRoute {
  import opened Wrappers
  import opened Js
  import opened Strings
  import opened RateLimit
  import opened Http
  import opened PromptText
  import opened EmailTemplates

  /** The fields the handler reads from the JSON body. */
  datatype Body = Body(
    resumeContent: Option<string>,
    jobDescription: Option<string>,
    templateId: Option<string>,
    personalInfo: Option<PersonalInfo>,
    language: Option<string>)

  datatype TemplateInfo = TemplateInfo(id: string, name: string, language: Language, tone: string)
  datatype Metadata = Metadata(wordsCount: nat, templateUsed: string, language: string)
  /** The success body; `generatedAt` is left out. */
  datatype Payload = Payload(email: string, template: TemplateInfo, metadata: Metadata)

  const DEFAULT_TEMPLATE_ID := "email-english"
  const DEFAULT_LANGUAGE := "english"
  const NAME_REQUIRED := "Personal information with name is required for email generation"
  const NOTHING_GENERATED := "No email generated. Please try again."

  /** The destructuring default: an absent `templateId` is "email-english";
      any given value, even "", is kept. */
  function TemplateIdOf(b: Body): (id: string)
    ensures b.templateId.Some? ==> id == b.templateId.value
    ensures b.templateId.None? ==> id == DEFAULT_TEMPLATE_ID
  {
    match b.templateId
    case None => DEFAULT_TEMPLATE_ID
    case Some(id) => id
  }

  /** The destructuring default: an absent `language` is "english"; any
      given value is kept. */
  function LanguageOf(b: Body): (language: string)
    ensures b.language.Some? ==> language == b.language.value
    ensures b.language.None? ==> language == DEFAULT_LANGUAGE
  {
    match b.language
    case None => DEFAULT_LANGUAGE
    case Some(language) => language
  }

  /** The checks in order; the error text of the first that fails, `None`
      when all pass. */
  function Validate(b: Body): (r: Option<string>)
    ensures r.None? <==>
      Truthy(b.resumeContent) && Truthy(b.jobDescription) && Named(b.personalInfo)
      && |b.resumeContent.value| >= MIN_RESUME_LENGTH
      && |b.jobDescription.value| >= MIN_JOB_LENGTH
    ensures r == Some(FIELDS_REQUIRED) <==> !Truthy(b.resumeContent) || !Truthy(b.jobDescription)
    ensures r == Some(NAME_REQUIRED) <==>
      Truthy(b.resumeContent) && Truthy(b.jobDescription) && !Named(b.personalInfo)
    ensures r == Some(RESUME_TOO_SHORT) <==>
      Truthy(b.resumeContent) && Truthy(b.jobDescription) && Named(b.personalInfo)
      && |b.resumeContent.value| < MIN_RESUME_LENGTH
    ensures r == Some(JOB_TOO_SHORT) <==>
      Truthy(b.resumeContent) && Truthy(b.jobDescription) && Named(b.personalInfo)
      && |b.resumeContent.value| >= MIN_RESUME_LENGTH
      && |b.jobDescription.value| < MIN_JOB_LENGTH
  {
    if !Truthy(b.resumeContent) || !Truthy(b.jobDescription) then Some(FIELDS_REQUIRED)
    else if !Named(b.personalInfo) then Some(NAME_REQUIRED)
    else if |b.resumeContent.value| < MIN_RESUME_LENGTH then Some(RESUME_TOO_SHORT)
    else if |b.jobDescription.value| < MIN_JOB_LENGTH then Some(JOB_TOO_SHORT)
    else None
  }

  /** The prompt sent for a valid body. */
  function PromptOf(b: Body): string
    requires Validate(b).None?
  {
    GenerateEmailPrompt(TemplateIdOf(b), b.resumeContent.value, b.jobDescription.value,
                        b.personalInfo.value, LanguageOf(b))
  }

  /** What the handler makes of the provider's reply: a throw is a 500
      with the generic text, an empty reply a 500 saying nothing was
      generated, and any other reply a 200 with the trimmed text, its word
      count, the resolved template, the id as requested and the requested
      language. */
  function Reply(b: Body, reply: ProviderReply): (resp: Response<Payload>)
    ensures reply.Threw? ==> resp == Error(500, INTERNAL_ERROR)
    ensures reply == Text("") ==> resp == Error(500, NOTHING_GENERATED)
    ensures resp.Ok? <==> reply.Text? && reply.text != ""
    ensures resp.Ok? ==>
      && resp.payload.email == Trim(reply.text)
      && Unpadded(resp.payload.email)
      && resp.payload.metadata.wordsCount == CountChar(resp.payload.email, ' ') + 1
    ensures resp.Ok? ==>
      var t := GetEmailTemplate(TemplateIdOf(b));
      && resp.payload.template == TemplateInfo(t.id, t.name, t.language, t.tone)
      && resp.payload.metadata.templateUsed == TemplateIdOf(b)
      && resp.payload.metadata.language == LanguageOf(b)
  {
    match reply
    case Threw => Error(500, INTERNAL_ERROR)
    case Text(email) =>
      if email == "" then Error(500, NOTHING_GENERATED)
      else
        var t := GetEmailTemplate(TemplateIdOf(b));
        Ok(Payload(Trim(email), TemplateInfo(t.id, t.name, t.language, t.tone),
                   Metadata(WordsCount(email), TemplateIdOf(b), LanguageOf(b))))
  }

  /** Everything after the body has been parsed: a failed check is a 400
      with its text and the provider is not consulted; otherwise the provider
      is asked once, with the composed prompt, and its reply decides the
      response. */
  function Respond(b: Body, generate: Provider): (resp: Response<Payload>)
    ensures Validate(b).Some? ==> resp == Error(400, Validate(b).value)
    ensures Validate(b).None? ==> resp == Reply(b, generate(PromptOf(b)))
  {
    match Validate(b)
    case Some(message) => Error(400, message)
    case None => Reply(b, generate(PromptOf(b)))
  }

  /** One POST against the route's table at time `now`: the rate check runs
      first and counts every request that reaches it, valid or not; a refused
      request is a 429, a body that does not parse a 500, and the rest is
      `Respond`. */
  function Serve(table: Table, req: Request<Body>, now: int, generate: Provider)
    : (o: Outcome<Payload>)
    ensures o.table == Check(table, ClientKey(req.headers), now).table
    ensures !Check(table, ClientKey(req.headers), now).allowed ==>
      o.response == Error(429, RATE_LIMITED)
    ensures Check(table, ClientKey(req.headers), now).allowed && req.body.None? ==>
      o.response == Error(500, INTERNAL_ERROR)
    ensures Check(table, ClientKey(req.headers), now).allowed && req.body.Some? ==>
      o.response == Respond(req.body.value, generate)
  {
    var d := Check(table, ClientKey(req.headers), now);
    if !d.allowed then Outcome(d.table, Error(429, RATE_LIMITED))
    else if req.body.None? then Outcome(d.table, Error(500, INTERNAL_ERROR))
    else Outcome(d.table, Respond(req.body.value, generate))
  }

  /** A rejected body never reaches the provider: the response is the same
      whatever the provider would have said. */
  lemma RejectionSkipsProvider(b: Body, g1: Provider, g2: Provider)
    requires Validate(b).Some?
    ensures Respond(b, g1) == Respond(b, g2)
    ensures Respond(b, g1).Error? && Respond(b, g1).status == 400
  {
  }

  /** A non-empty reply made only of white characters passes the emptiness
      check (which looks at the untrimmed text) and is returned as an empty
      email with a word count of 1. */
  lemma BlankReplyIsEmptyEmail(b: Body, text: string)
    requires text != "" && AllWhite(text)
    ensures Reply(b, Text(text)).Ok?
    ensures Reply(b, Text(text)).payload.email == ""
    ensures Reply(b, Text(text)).payload.metadata.wordsCount == 1
  {
    TrimEmptyIffAllWhite(text);
  }


  /** An absent template id is reported as "email-english"; an empty one is
      reported as "" yet resolves to the English template; an absent language
      is reported as "english". */
  lemma DefaultsOfEmail(b: Body, reply: ProviderReply)
    requires Reply(b, reply).Ok?
    ensures b.templateId.None? ==>
      Reply(b, reply).payload.metadata.templateUsed == "email-english"
      && Reply(b, reply).payload.template.id == "email-english"
    ensures b.templateId == Some("") ==>
      Reply(b, reply).payload.metadata.templateUsed == ""
      && Reply(b, reply).payload.template.id == "email-english"
    ensures b.language.None? ==> Reply(b, reply).payload.metadata.language == "english"
  {
  }

  /** The reported template language comes from the template and the
      reported language from the request, so the Hebrew template asked for in
      English is reported as both. */
  lemma HebrewTemplateInEnglish(b: Body, reply: ProviderReply)
    requires b.templateId == Some("email-hebrew") && b.language == Some("english")
    requires Reply(b, reply).Ok?
    ensures Reply(b, reply).payload.template.language == Hebrew
    ensures Reply(b, reply).payload.metadata.language == "english"
  {
  }


  /** The route: its own rate-limit table, kept across requests. */
  class Route {
    const limiter: RateLimiter

    ghost predicate Valid()
      reads this, limiter
    {
      limiter.Valid()
    }

    constructor ()
      ensures Valid() && fresh(limiter) && limiter.table == map[]
    {
      limiter := new RateLimiter();
    }

    /** `POST(request)` with the clock reading `now` and the provider passed
        in. */
    method Post(req: Request<Body>, now: int, generate: Provider)
      returns (resp: Response<Payload>)
      requires Valid()
      modifies limiter
      ensures Valid()
      ensures limiter.table == Serve(old(limiter.table), req, now, generate).table
      ensures resp == Serve(old(limiter.table), req, now, generate).response
    {
      var key := ClientKey(req.headers);
      var allowed := limiter.CheckRateLimit(key, now);
      if !allowed {
        return Error(429, RATE_LIMITED);
      }
      if req.body.None? {
        return Error(500, INTERNAL_ERROR);
      }
      resp := Respond(req.body.value, generate);
    }
  }
}
