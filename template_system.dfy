/** The cover-letter template catalog, its lookup with fallback, and the
    prompt composer for the cover-letter route. */
module TemplateSystem {
  import opened Wrappers
  import opened Js
  import opened Strings
  import opened PromptText

  datatype CoverLetterTemplate = CoverLetterTemplate(
    id: string,
    name: string,
    description: string,
    systemPrompt: string,
    structure: seq<string>,
    tone: string)

  const Professional := CoverLetterTemplate(
    "professional",
    "Professional",
    "Clean and formal tone perfect for corporate positions",
    "Create a professional cover letter with "
    + "a formal tone. Use business language, maintain "
    + "proper structure, and focus on achievements "
    + "and qualifications. Be respectful and concise.",
    ["Professional greeting",
     "Opening statement with position interest",
     "Relevant experience and achievements",
     "Skills alignment with job requirements",
     "Company knowledge and enthusiasm",
     "Call to action and closing"],
    "formal, respectful, and business-focused")

  const Creative := CoverLetterTemplate(
    "creative",
    "Creative",
    "Engaging style for design and creative roles",
    "Create a creative cover letter that shows "
    + "personality while remaining professional. "
    + "Use engaging language, highlight creative "
    + "achievements, and demonstrate passion for the field.",
    ["Creative opening hook",
     "Passion for the industry/company",
     "Portfolio highlights and creative achievements",
     "Problem-solving approach",
     "Cultural fit and collaboration style",
     "Enthusiastic closing"],
    "innovative, personality-driven, and expressive")

  const Technical := CoverLetterTemplate(
    "technical",
    "Technical",
    "Detailed approach for engineering positions",
    "Create a technical cover letter that emphasizes "
    + "programming skills, technologies, and engineering "
    + "achievements. Use precise language and include "
    + "relevant technical details and metrics.",
    ["Technical introduction",
     "Relevant technologies and frameworks",
     "Project achievements and metrics",
     "Problem-solving examples",
     "Technical leadership or collaboration",
     "Interest in technical challenges"],
    "technical, precise, and solution-oriented")

  const Startup := CoverLetterTemplate(
    "startup",
    "Startup",
    "Dynamic tone for fast-paced environments",
    "Create a startup-focused cover letter with "
    + "energy and enthusiasm. Emphasize adaptability, "
    + "growth mindset, and ability to work in fast-paced "
    + "environments. Show excitement for innovation.",
    ["Energetic opening",
     "Adaptability and quick learning",
     "Growth mindset and achievements",
     "Startup experience or interest",
     "Contribution to company mission",
     "Excited closing with availability"],
    "energetic, growth-minded, and adaptable")

  /** The `templates` record, keyed by template id. */
  const Templates: map<string, CoverLetterTemplate> := map[
    "professional" := Professional,
    "creative" := Creative,
    "technical" := Technical,
    "startup" := Startup]

  /** The catalog holds exactly the four styles, each filed under its own
      id. */
  lemma CatalogShape()
    ensures Templates.Keys == {"professional", "creative", "technical", "startup"}
    ensures forall k :: k in Templates ==> Templates[k].id == k
  {
  }

  /** `getTemplate(id)`: the catalog entry for a known id, the professional
      template for every other id; it never fails. */
  function GetTemplate(templateId: string): (t: CoverLetterTemplate)
    ensures templateId in Templates ==> t == Templates[templateId]
    ensures templateId !in Templates ==> t == Templates["professional"]
    ensures t in Templates.Values && t.id in Templates && Templates[t.id] == t
  {
    if templateId in Templates then Templates[templateId] else Professional
  }

  const PROMPT_INTRO := "\n"
                        + "You are an expert cover letter writer. Create "
                        + "a compelling cover letter using the "
  const TEMPLATE_HEADING := " template.\n\nTEMPLATE REQUIREMENTS:\n"

  /** The REQUIREMENTS block that closes the prompt. */
  const PROMPT_REQUIREMENTS :=
    "REQUIREMENTS:\n"
    + "1. Write a complete cover letter (300-400 words)\n"
    + "2. Personalize it based on the job description\n"
    + "3. Highlight relevant experience from the resume\n"
    + "4. Use the specified tone and style\n"
    + "5. Include specific examples and achievements\n"
    + "6. Make it compelling and unique\n"
    + "7. End with a strong call to action\n"
    + "\n"
    + "Generate only the cover letter content, "
    + "no explanations or metadata.\n"

  /** The block that describes the template: its style, tone, structure and
      instructions. */
  function TemplateBlock(t: CoverLetterTemplate): string {
    "- Style: " + t.description
    + "\n- Tone: " + t.tone
    + "\n- Structure: " + Join(t.structure, ", ")
    + "\n\nINSTRUCTIONS:\n" + t.systemPrompt
  }

  /** `additionalInstructions ? 'ADDITIONAL INSTRUCTIONS:\n' + it : ''`. */
  function AdditionalSection(additionalInstructions: Option<string>): string {
    if Truthy(additionalInstructions) then
      "ADDITIONAL INSTRUCTIONS:\n" + additionalInstructions.value
    else ""
  }

  /** The template literal of `generatePrompt` for an already resolved
      template. */
  function ComposePrompt(t: CoverLetterTemplate, resumeContent: string,
                         jobDescription: string,
                         additionalInstructions: Option<string>): string
  {
    PROMPT_INTRO + t.name + TEMPLATE_HEADING
    + TemplateBlock(t) + "\n\n"
    + UserContent(resumeContent, jobDescription) + "\n\n"
    + AdditionalSection(additionalInstructions) + "\n\n"
    + PROMPT_REQUIREMENTS
  }

  /** `generatePrompt(templateId, ...)`: the prompt for the template the id
      resolves to. */
  function GeneratePrompt(templateId: string, resumeContent: string,
                          jobDescription: string,
                          additionalInstructions: Option<string>): string
  {
    ComposePrompt(GetTemplate(templateId), resumeContent, jobDescription, additionalInstructions)
  }

  /** The prompt names the template and carries its style, tone, structure
      (the items joined by ", " in order) and instructions. */
  lemma PromptShowsTemplate(t: CoverLetterTemplate, resumeContent: string,
                            jobDescription: string,
                            additionalInstructions: Option<string>)
    ensures var p := ComposePrompt(t, resumeContent, jobDescription, additionalInstructions);
      && Contains(p, t.name)
      && Contains(p, "- Style: " + t.description
                     + "\n- Tone: " + t.tone
                     + "\n- Structure: " + Join(t.structure, ", ")
                     + "\n\nINSTRUCTIONS:\n" + t.systemPrompt)
  {
    var ud := "\n\n" + UserContent(resumeContent, jobDescription) + "\n\n"
      + AdditionalSection(additionalInstructions) + "\n\n" + PROMPT_REQUIREMENTS;
    var p0 := PROMPT_INTRO + t.name;
    ContainsMiddle(PROMPT_INTRO, t.name, []);
    assert p0 + [] == p0;
    ContainsLeft(p0, TEMPLATE_HEADING, t.name);
    var p1 := p0 + TEMPLATE_HEADING;
    ContainsLeft(p1, TemplateBlock(t), t.name);
    ContainsMiddle(p1, TemplateBlock(t), []);
    assert p1 + TemplateBlock(t) + [] == p1 + TemplateBlock(t);
    var p2 := p1 + TemplateBlock(t);
    PromptAfter(p2, t, resumeContent, jobDescription, additionalInstructions, t.name);
    PromptAfter(p2, t, resumeContent, jobDescription, additionalInstructions, TemplateBlock(t));
  }

  /** Whatever the part up to the template block contains, the prompt
      contains. */
  lemma PromptAfter(p2: string, t: CoverLetterTemplate, resumeContent: string,
                    jobDescription: string, additionalInstructions: Option<string>,
                    sub: string)
    requires p2 == PROMPT_INTRO + t.name + TEMPLATE_HEADING + TemplateBlock(t)
    requires Contains(p2, sub)
    ensures Contains(ComposePrompt(t, resumeContent, jobDescription, additionalInstructions), sub)
  {
    var p3 := p2 + "\n\n";
    ContainsLeft(p2, "\n\n", sub);
    var p4 := p3 + UserContent(resumeContent, jobDescription);
    ContainsLeft(p3, UserContent(resumeContent, jobDescription), sub);
    var p5 := p4 + "\n\n";
    ContainsLeft(p4, "\n\n", sub);
    var p6 := p5 + AdditionalSection(additionalInstructions);
    ContainsLeft(p5, AdditionalSection(additionalInstructions), sub);
    var p7 := p6 + "\n\n";
    ContainsLeft(p6, "\n\n", sub);
    ContainsLeft(p7, PROMPT_REQUIREMENTS, sub);
  }

  /** The résumé and the job description appear verbatim, the résumé right
      after "RESUME CONTENT:" and the job description right after
      "JOB DESCRIPTION:", in that order. */
  lemma PromptCarriesUserContent(t: CoverLetterTemplate, resumeContent: string,
                                 jobDescription: string,
                                 additionalInstructions: Option<string>)
    ensures Contains(
      ComposePrompt(t, resumeContent, jobDescription, additionalInstructions),
      "RESUME CONTENT:\n" + resumeContent + "\n\nJOB DESCRIPTION:\n" + jobDescription)
  {
    var head := PROMPT_INTRO + t.name + TEMPLATE_HEADING + TemplateBlock(t) + "\n\n";
    var u := UserContent(resumeContent, jobDescription);
    ContainsMiddle(head, u, []);
    assert head + u + [] == head + u;
    var p4 := head + u;
    ContainsLeft(p4, "\n\n", u);
    var p5 := p4 + "\n\n";
    var p6 := p5 + AdditionalSection(additionalInstructions);
    ContainsLeft(p5, AdditionalSection(additionalInstructions), u);
    var p7 := p6 + "\n\n";
    ContainsLeft(p6, "\n\n", u);
    ContainsLeft(p7, PROMPT_REQUIREMENTS, u);
  }

  /** The "ADDITIONAL INSTRUCTIONS:" section is there exactly when the
      instructions are truthy, and then holds them verbatim; falsy
      instructions give the same prompt as none at all. */
  lemma AdditionalInstructionsIff(t: CoverLetterTemplate, resumeContent: string,
                                  jobDescription: string,
                                  additionalInstructions: Option<string>)
    ensures var p := ComposePrompt(t, resumeContent, jobDescription, additionalInstructions);
      (p == ComposePrompt(t, resumeContent, jobDescription, None))
        <==> !Truthy(additionalInstructions)
    ensures Truthy(additionalInstructions) ==> Contains(
      ComposePrompt(t, resumeContent, jobDescription, additionalInstructions),
      "ADDITIONAL INSTRUCTIONS:\n" + additionalInstructions.value)
  {
    var head := PROMPT_INTRO + t.name + TEMPLATE_HEADING + TemplateBlock(t) + "\n\n"
      + UserContent(resumeContent, jobDescription) + "\n\n";
    var tail := "\n\n" + PROMPT_REQUIREMENTS;
    var section := AdditionalSection(additionalInstructions);
    assert ComposePrompt(t, resumeContent, jobDescription, additionalInstructions)
      == head + section + tail;
    assert ComposePrompt(t, resumeContent, jobDescription, None) == head + "" + tail;
    ContainsMiddle(head, section, tail);
  }

  /** The prompt depends on the id only through the template it resolves
      to, so every unknown id gives the professional prompt. */
  lemma UnknownIdIsProfessional(templateId: string, resumeContent: string,
                                jobDescription: string,
                                additionalInstructions: Option<string>)
    requires templateId !in Templates
    ensures GeneratePrompt(templateId, resumeContent, jobDescription, additionalInstructions)
         == GeneratePrompt("professional", resumeContent, jobDescription, additionalInstructions)
  {
  }
}
