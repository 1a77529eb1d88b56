/** The POST handler of the cover-letter route: rate limiting, validation,
    prompting the provider, and the shape of the success response. */
module CoverLetterRoute {
  import opened Wrappers
  import opened Js
  import opened Strings
  import opened RateLimit
  import opened Http
  import opened TemplateSystem

  /** The fields the handler reads from the JSON body. */
  datatype Body = Body(
    resumeContent: Option<string>,
    jobDescription: Option<string>,
    templateId: Option<string>,
    additionalInstructions: Option<string>)

  datatype TemplateInfo = TemplateInfo(id: string, name: string, tone: string)
  datatype Metadata = Metadata(wordsCount: nat, templateUsed: string)
  /** The success body; `generatedAt` is left out. */
  datatype Payload = Payload(coverLetter: string, template: TemplateInfo, metadata: Metadata)

  const DEFAULT_TEMPLATE_ID := "professional"
  const NOTHING_GENERATED := "No cover letter generated. Please try again."

  /** The destructuring default: an absent `templateId` is "professional";
      any given value, even "", is kept. */
  function TemplateIdOf(b: Body): (id: string)
    ensures b.templateId.Some? ==> id == b.templateId.value
    ensures b.templateId.None? ==> id == DEFAULT_TEMPLATE_ID
  {
    match b.templateId
    case None => DEFAULT_TEMPLATE_ID
    case Some(id) => id
  }

  /** The checks in order; the error text of the first that fails, `None`
      when all pass. */
  function Validate(b: Body): (r: Option<string>)
    ensures r.None? <==>
      Truthy(b.resumeContent) && Truthy(b.jobDescription)
      && |b.resumeContent.value| >= MIN_RESUME_LENGTH
      && |b.jobDescription.value| >= MIN_JOB_LENGTH
    ensures r == Some(FIELDS_REQUIRED) <==> !Truthy(b.resumeContent) || !Truthy(b.jobDescription)
    ensures r == Some(RESUME_TOO_SHORT) <==>
      Truthy(b.resumeContent) && Truthy(b.jobDescription)
      && |b.resumeContent.value| < MIN_RESUME_LENGTH
    ensures r == Some(JOB_TOO_SHORT) <==>
      Truthy(b.resumeContent) && Truthy(b.jobDescription)
      && |b.resumeContent.value| >= MIN_RESUME_LENGTH
      && |b.jobDescription.value| < MIN_JOB_LENGTH
  {
    if !Truthy(b.resumeContent) || !Truthy(b.jobDescription) then Some(FIELDS_REQUIRED)
    else if |b.resumeContent.value| < MIN_RESUME_LENGTH then Some(RESUME_TOO_SHORT)
    else if |b.jobDescription.value| < MIN_JOB_LENGTH then Some(JOB_TOO_SHORT)
    else None
  }

  /** The prompt sent for a valid body. */
  function PromptOf(b: Body): string
    requires Validate(b).None?
  {
    GeneratePrompt(TemplateIdOf(b), b.resumeContent.value, b.jobDescription.value,
                   b.additionalInstructions)
  }

  /** What the handler makes of the provider's reply: a throw is a 500
      with the generic text, an empty reply a 500 saying nothing was
      generated, and any other reply a 200 with the trimmed text, its word
      count, the resolved template and the id as requested. */
  function Reply(b: Body, reply: ProviderReply): (resp: Response<Payload>)
    ensures reply.Threw? ==> resp == Error(500, INTERNAL_ERROR)
    ensures reply == Text("") ==> resp == Error(500, NOTHING_GENERATED)
    ensures resp.Ok? <==> reply.Text? && reply.text != ""
    ensures resp.Ok? ==>
      && resp.payload.coverLetter == Trim(reply.text)
      && Unpadded(resp.payload.coverLetter)
      && resp.payload.metadata.wordsCount == CountChar(resp.payload.coverLetter, ' ') + 1
    ensures resp.Ok? ==>
      var t := GetTemplate(TemplateIdOf(b));
      && resp.payload.template == TemplateInfo(t.id, t.name, t.tone)
      && resp.payload.template.id in Templates
      && resp.payload.metadata.templateUsed == TemplateIdOf(b)
  {
    match reply
    case Threw => Error(500, INTERNAL_ERROR)
    case Text(coverLetter) =>
      if coverLetter == "" then Error(500, NOTHING_GENERATED)
      else
        var t := GetTemplate(TemplateIdOf(b));
        Ok(Payload(Trim(coverLetter), TemplateInfo(t.id, t.name, t.tone),
                   Metadata(WordsCount(coverLetter), TemplateIdOf(b))))
  }

  /** Everything after the body has been parsed: a failed check is a 400
      with its text and the provider is not consulted; otherwise the provider
      is asked once, with the composed prompt, and its reply decides the
      response. */
  function Respond(b: Body, generate: Provider): (resp: Response<Payload>)
    ensures Validate(b).Some? ==> resp == Error(400, Validate(b).value)
    ensures Validate(b).None? ==> resp == Reply(b, generate(PromptOf(b)))
  {
    match Validate(b)
    case Some(message) => Error(400, message)
    case None => Reply(b, generate(PromptOf(b)))
  }

  /** One POST against the route's table at time `now`: the rate check runs
      first and counts every request that reaches it, valid or not; a refused
      request is a 429, a body that does not parse a 500, and the rest is
      `Respond`. */
  function Serve(table: Table, req: Request<Body>, now: int, generate: Provider)
    : (o: Outcome<Payload>)
    ensures o.table == Check(table, ClientKey(req.headers), now).table
    ensures !Check(table, ClientKey(req.headers), now).allowed ==>
      o.response == Error(429, RATE_LIMITED)
    ensures Check(table, ClientKey(req.headers), now).allowed && req.body.None? ==>
      o.response == Error(500, INTERNAL_ERROR)
    ensures Check(table, ClientKey(req.headers), now).allowed && req.body.Some? ==>
      o.response == Respond(req.body.value, generate)
  {
    var d := Check(table, ClientKey(req.headers), now);
    if !d.allowed then Outcome(d.table, Error(429, RATE_LIMITED))
    else if req.body.None? then Outcome(d.table, Error(500, INTERNAL_ERROR))
    else Outcome(d.table, Respond(req.body.value, generate))
  }

  /** A rejected body never reaches the provider: the response is the same
      whatever the provider would have said. */
  lemma RejectionSkipsProvider(b: Body, g1: Provider, g2: Provider)
    requires Validate(b).Some?
    ensures Respond(b, g1) == Respond(b, g2)
    ensures Respond(b, g1).Error? && Respond(b, g1).status == 400
  {
  }

  /** A non-empty reply made only of white characters passes the emptiness
      check (which looks at the untrimmed text) and is returned as an empty
      cover letter with a word count of 1. */
  lemma BlankReplyIsEmptyLetter(b: Body, text: string)
    requires text != "" && AllWhite(text)
    ensures Reply(b, Text(text)).Ok?
    ensures Reply(b, Text(text)).payload.coverLetter == ""
    ensures Reply(b, Text(text)).payload.metadata.wordsCount == 1
  {
    TrimEmptyIffAllWhite(text);
  }


  /** An absent template id is reported as "professional"; an empty one is
      reported as "" yet resolves to the professional template. */
  lemma TemplateIdDefaults(b: Body, reply: ProviderReply)
    requires Reply(b, reply).Ok?
    ensures b.templateId.None? ==>
      Reply(b, reply).payload.metadata.templateUsed == "professional"
      && Reply(b, reply).payload.template.id == "professional"
    ensures b.templateId == Some("") ==>
      Reply(b, reply).payload.metadata.templateUsed == ""
      && Reply(b, reply).payload.template.id == "professional"
  {
  }

  /** The route: its own rate-limit table, kept across requests. */
  class Route {
    const limiter: RateLimiter

    ghost predicate Valid()
      reads this, limiter
    {
      limiter.Valid()
    }

    constructor ()
      ensures Valid() && fresh(limiter) && limiter.table == map[]
    {
      limiter := new RateLimiter();
    }

    /** `POST(request)` with the clock reading `now` and the provider passed
        in. */
    method Post(req: Request<Body>, now: int, generate: Provider)
      returns (resp: Response<Payload>)
      requires Valid()
      modifies limiter
      ensures Valid()
      ensures limiter.table == Serve(old(limiter.table), req, now, generate).table
      ensures resp == Serve(old(limiter.table), req, now, generate).response
    {
      var key := ClientKey(req.headers);
      var allowed := limiter.CheckRateLimit(key, now);
      if !allowed {
        return Error(429, RATE_LIMITED);
      }
      if req.body.None? {
        return Error(500, INTERNAL_ERROR);
      }
      resp := Respond(req.body.value, generate);
    }
  }
}
