/** The home page: the checks run before a cover letter is requested, and
    the page state `generateCoverLetter` updates around the request. */
module Page {
  import opened Wrappers
  import opened Strings
  import opened Http
  import opened CoverLetterRoute
  import opened TemplateSelector
  import TemplateSystem
  import opened FileUpload

  const NO_RESUME := "Please upload your resume first"
  const NO_JOB := "Please enter the job description"
  const GENERATION_FAILED := "Failed to generate cover letter"
  const GENERATED := "Cover letter generated successfully!"

  /** The client-side checks, in order, on the trimmed texts: the error
      shown, `None` when the request may go out. Only the job description's
      length is checked, and it is measured after trimming. */
  function PreSubmit(resumeContent: string, jobDescription: string): (error: Option<string>)
    ensures error.None? <==> Trim(resumeContent) != "" && |Trim(jobDescription)| >= 100
    ensures error == Some(NO_RESUME) <==> Trim(resumeContent) == ""
    ensures error == Some(NO_JOB) <==> Trim(resumeContent) != "" && Trim(jobDescription) == ""
    ensures error == Some(JOB_TOO_SHORT) <==>
      Trim(resumeContent) != "" && 0 < |Trim(jobDescription)| < 100
  {
    if Trim(resumeContent) == "" then Some(NO_RESUME)
    else if Trim(jobDescription) == "" then Some(NO_JOB)
    else if |Trim(jobDescription)| < MIN_JOB_LENGTH then Some(JOB_TOO_SHORT)
    else None
  }

  /** The body the page posts: the texts as typed, untrimmed, and the
      selected template id. */
  function RequestBody(resumeContent: string, jobDescription: string,
                       selectedTemplate: string): (b: Body)
    ensures b.resumeContent == Some(resumeContent) && b.jobDescription == Some(jobDescription)
    ensures TemplateIdOf(b) == selectedTemplate && b.additionalInstructions.None?
  {
    Body(Some(resumeContent), Some(jobDescription), Some(selectedTemplate), None)
  }

  /** Trimming never makes a text longer. */
  lemma TrimShortens(s: string)
    ensures |Trim(s)| <= |s|
  {
  }

  /** A request the page lets through with a résumé of at least 50
      characters passes every check of the route. */
  lemma ClientThenServer(resumeContent: string, jobDescription: string, selectedTemplate: string)
    requires PreSubmit(resumeContent, jobDescription).None?
    requires |resumeContent| >= MIN_RESUME_LENGTH
    ensures Validate(RequestBody(resumeContent, jobDescription, selectedTemplate)).None?
  {
    TrimShortens(jobDescription);
  }

  /** The page does not check the résumé's length, so a short résumé goes
      out and comes back as the route's 400. */
  lemma ShortResumeReachesServer(resumeContent: string, jobDescription: string,
                                 selectedTemplate: string)
    requires Trim(resumeContent) != "" && |resumeContent| < MIN_RESUME_LENGTH
    requires |Trim(jobDescription)| >= MIN_JOB_LENGTH
    ensures PreSubmit(resumeContent, jobDescription).None?
    ensures Validate(RequestBody(resumeContent, jobDescription, selectedTemplate))
         == Some(RESUME_TOO_SHORT)
  {
    TrimShortens(jobDescription);
  }

  /** The two sides measure the job description differently: one that is
      at least 100 characters long only thanks to surrounding white space is
      refused by the page, though the route would accept it. */
  lemma PaddedJobRefusedByClientOnly(resumeContent: string, jobDescription: string,
                                     selectedTemplate: string)
    requires Trim(resumeContent) != "" && |resumeContent| >= MIN_RESUME_LENGTH
    requires 0 < |Trim(jobDescription)| < MIN_JOB_LENGTH <= |jobDescription|
    ensures PreSubmit(resumeContent, jobDescription) == Some(JOB_TOO_SHORT)
    ensures Validate(RequestBody(resumeContent, jobDescription, selectedTemplate)).None?
  {
  }

  /** The part of the page's state the cover-letter flow reads and writes.
      The content type starts as the cover letter and nothing on the page
      changes it. */
  class HomePage {
    var resumeContent: string
    var resumeFileName: string
    var jobDescription: string
    var selectedTemplate: string
    var contentType: ContentType
    var coverLetter: string
    var isGenerating: bool
    var generationCount: nat
    var toasts: seq<Toast>

    constructor ()
      ensures resumeContent == "" && resumeFileName == "" && jobDescription == ""
      ensures selectedTemplate == "professional" && contentType == CoverLetter && coverLetter == ""
      ensures !isGenerating && generationCount == 0 && toasts == []
    {
      resumeContent := "";
      resumeFileName := "";
      jobDescription := "";
      selectedTemplate := "professional";
      contentType := CoverLetter;
      coverLetter := "";
      isGenerating := false;
      generationCount := 0;
      toasts := [];
    }

    /** The generate button is enabled only when no request is running and
        both texts are non-empty. */
    predicate CanGenerate()
      reads this
    {
      !isGenerating && resumeContent != "" && jobDescription != ""
    }

    /** `handleFileUpload(content, filename)`, the upload box's callback. */
    method HandleFileUpload(content: string, filename: string)
      modifies this
      ensures contentType == old(contentType)
      ensures resumeContent == content && resumeFileName == filename
      ensures jobDescription == old(jobDescription) && selectedTemplate == old(selectedTemplate)
      ensures coverLetter == old(coverLetter) && isGenerating == old(isGenerating)
      ensures generationCount == old(generationCount) && toasts == old(toasts)
    {
      resumeContent := content;
      resumeFileName := filename;
    }

    /** The template picker's effect: the selection becomes one the picker
        offers for the page's content type. */
    method SyncTemplate()
      modifies this
      ensures selectedTemplate == AutoSelect(contentType, old(selectedTemplate))
      ensures contentType == old(contentType)
      ensures resumeContent == old(resumeContent) && jobDescription == old(jobDescription)
      ensures resumeFileName == old(resumeFileName)
      ensures coverLetter == old(coverLetter) && isGenerating == old(isGenerating)
      ensures generationCount == old(generationCount) && toasts == old(toasts)
    {
      selectedTemplate := AutoSelect(contentType, selectedTemplate);
    }

    /** The start of `generateCoverLetter`: a failed check shows its error
        and nothing is sent; otherwise the spinner goes on and the body to
        post is returned. */
    method Start() returns (body: Option<Body>)
      modifies this
      ensures contentType == old(contentType)
      ensures PreSubmit(old(resumeContent), old(jobDescription)).Some? ==>
        && body.None?
        && toasts == old(toasts) + [Failure(PreSubmit(old(resumeContent), old(jobDescription)).value)]
        && isGenerating == old(isGenerating)
      ensures PreSubmit(old(resumeContent), old(jobDescription)).None? ==>
        && body == Some(RequestBody(resumeContent, jobDescription, selectedTemplate))
        && isGenerating && toasts == old(toasts)
      ensures resumeContent == old(resumeContent) && jobDescription == old(jobDescription)
      ensures selectedTemplate == old(selectedTemplate) && coverLetter == old(coverLetter)
      ensures generationCount == old(generationCount) && resumeFileName == old(resumeFileName)
    {
      if Trim(resumeContent) == "" {
        toasts := toasts + [Failure(NO_RESUME)];
        return None;
      }
      if Trim(jobDescription) == "" {
        toasts := toasts + [Failure(NO_JOB)];
        return None;
      }
      if |Trim(jobDescription)| < MIN_JOB_LENGTH {
        toasts := toasts + [Failure(JOB_TOO_SHORT)];
        return None;
      }
      isGenerating := true;
      body := Some(Body(Some(resumeContent), Some(jobDescription), Some(selectedTemplate), None));
    }

    /** The end of `generateCoverLetter`: a success stores the letter,
        counts one more generation and says so; an error shows the route's
        message, or the generic one when it is empty, and changes neither the
        letter nor the count. The spinner is off either way. */
    method Finish(resp: Response<Payload>)
      modifies this
      ensures contentType == old(contentType)
      ensures !isGenerating
      ensures resp.Ok? ==>
        && coverLetter == resp.payload.coverLetter
        && generationCount == old(generationCount) + 1
        && toasts == old(toasts) + [Success(GENERATED)]
      ensures resp.Error? ==>
        && coverLetter == old(coverLetter)
        && generationCount == old(generationCount)
        && toasts == old(toasts) +
             [Failure(if resp.message != "" then resp.message else GENERATION_FAILED)]
      ensures resumeContent == old(resumeContent) && jobDescription == old(jobDescription)
      ensures selectedTemplate == old(selectedTemplate) && resumeFileName == old(resumeFileName)
    {
      match resp {
        case Ok(payload) =>
          coverLetter := payload.coverLetter;
          generationCount := generationCount + 1;
          toasts := toasts + [Success(GENERATED)];
        case Error(_, message) =>
          var shown := if message != "" then message else GENERATION_FAILED;
          toasts := toasts + [Failure(shown)];
      }
      isGenerating := false;
    }

    /** `generateCoverLetter()` against the route, with the browser's
        headers, the server's clock and the provider passed in: nothing is
        posted, and the route's table is untouched, when a check fails;
        otherwise exactly one POST is made and its response is handled as
        `Finish` says. The texts, the file name and the selection are never
        changed. */
    method GenerateCoverLetter(server: Route, headers: Headers, now: int, generate: Provider)
      requires server.Valid()
      modifies this, server.limiter
      ensures contentType == old(contentType)
      ensures server.Valid()
      ensures PreSubmit(old(resumeContent), old(jobDescription)).None? ==> !isGenerating
      ensures PreSubmit(old(resumeContent), old(jobDescription)).Some? ==>
        isGenerating == old(isGenerating)
      ensures resumeContent == old(resumeContent) && resumeFileName == old(resumeFileName)
      ensures jobDescription == old(jobDescription) && selectedTemplate == old(selectedTemplate)
      ensures PreSubmit(old(resumeContent), old(jobDescription)).Some? ==>
        && server.limiter.table == old(server.limiter.table)
        && generationCount == old(generationCount)
        && coverLetter == old(coverLetter)
        && toasts == old(toasts) + [Failure(PreSubmit(old(resumeContent), old(jobDescription)).value)]
      ensures PreSubmit(old(resumeContent), old(jobDescription)).None? ==>
        var o := Serve(old(server.limiter.table),
                       Request(headers, Some(RequestBody(old(resumeContent), old(jobDescription),
                                                         old(selectedTemplate)))),
                       now, generate);
        && server.limiter.table == o.table
        && generationCount == old(generationCount) + (if o.response.Ok? then 1 else 0)
        && (o.response.Ok? ==> coverLetter == o.response.payload.coverLetter)
        && (o.response.Error? ==> coverLetter == old(coverLetter))
        && toasts == old(toasts) +
             [if o.response.Ok? then Success(GENERATED)
              else Failure(if o.response.message != "" then o.response.message
                           else GENERATION_FAILED)]
    {
      var body := Start();
      if body.None? {
        return;
      }
      var resp := server.Post(Request(headers, body), now, generate);
      Finish(resp);
    }
  }

  /** A successful generation stores a letter without surrounding white
      space whose word count the route computed from it. */
  lemma StoredLetterIsTrimmed(b: Body, reply: ProviderReply)
    requires Reply(b, reply).Ok?
    ensures Unpadded(Reply(b, reply).payload.coverLetter)
    ensures Reply(b, reply).payload.coverLetter == Trim(reply.text)
  {
  }
}
