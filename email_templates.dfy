/** The email template catalog, its lookup with fallback to the English
    template, and the email prompt composer. */
module EmailTemplates {
  import opened Wrappers
  import opened Js
  import opened Strings
  import opened PromptText

  /** The `language` field of a template. */
  datatype Language = English | Hebrew

  datatype EmailTemplate = EmailTemplate(
    id: string,
    name: string,
    language: Language,
    systemPrompt: string,
    structure: seq<string>,
    tone: string)

  const EmailEnglish := EmailTemplate(
    "email-english",
    "Professional Email (English)",
    English,
    "Create a professional email expressing interest "
    + "in a job position. The email should be concise "
    + "(150-200 words), professional, and include "
    + "personal contact information. Follow this "
    + "structure and tone.",
    ["Professional greeting with recruiter name",
     "Brief introduction and position interest",
     "Key qualifications summary",
     "Relevant experience highlights",
     "Enthusiasm for the company/role",
     "Call to action and contact information",
     "Professional closing"],
    "professional, concise, and respectful")

  const EmailHebrew := EmailTemplate(
    "email-hebrew",
    "Professional Email (Hebrew)",
    Hebrew,
    "Create a professional email in Hebrew expressing "
    + "interest in a job position. The email should "
    + "be formal, respectful, and concise (150-200 "
    + "words). Include personal contact information "
    + "and maintain professional Hebrew language throughout.",
    ["Professional Hebrew greeting",
     "Position interest statement",
     "Brief background summary",
     "Key qualifications",
     "Company enthusiasm",
     "Contact information",
     "Professional Hebrew closing"],
    "professional, respectful, formal in Hebrew")

  const ProfessionalEmail := EmailTemplate(
    "professional",
    "Professional Email",
    English,
    "Create a formal professional email for job "
    + "interest. Use business language, be concise "
    + "but comprehensive, and maintain a respectful "
    + "tone throughout.",
    ["Formal greeting",
     "Clear position interest",
     "Relevant qualifications",
     "Professional experience",
     "Company knowledge",
     "Next steps request",
     "Professional signature"],
    "formal, business-focused, and structured")

  const CreativeEmail := EmailTemplate(
    "creative",
    "Creative Email",
    English,
    "Create an engaging email for creative positions. "
    + "Show personality while maintaining professionalism. "
    + "Highlight creative achievements and demonstrate "
    + "passion for the field.",
    ["Engaging opening",
     "Creative position interest",
     "Portfolio/creative highlights",
     "Passion demonstration",
     "Cultural fit emphasis",
     "Enthusiastic closing"],
    "engaging, personality-driven while professional")

  const TechnicalEmail := EmailTemplate(
    "technical",
    "Technical Email",
    English,
    "Create a technical email emphasizing programming "
    + "skills and technical expertise. Include "
    + "relevant technologies and quantifiable achievements.",
    ["Technical greeting",
     "Position and technical interest",
     "Relevant technologies",
     "Technical achievements",
     "Problem-solving examples",
     "Technical collaboration interest"],
    "technical, precise, and solution-oriented")

  const StartupEmail := EmailTemplate(
    "startup",
    "Startup Email",
    English,
    "Create an energetic email for startup positions. "
    + "Emphasize adaptability, growth mindset, "
    + "and excitement for innovation and fast-paced "
    + "environments.",
    ["Energetic opening",
     "Startup position interest",
     "Adaptability examples",
     "Growth mindset demonstration",
     "Mission alignment",
     "Excited closing"],
    "energetic, growth-minded, and adaptable")

  /** The `emailTemplates` record, keyed by template id. */
  const EmailCatalog: map<string, EmailTemplate> := map[
    "email-english" := EmailEnglish,
    "email-hebrew" := EmailHebrew,
    "professional" := ProfessionalEmail,
    "creative" := CreativeEmail,
    "technical" := TechnicalEmail,
    "startup" := StartupEmail]

  /** Six templates, each filed under its own id; only "email-hebrew" is a
      Hebrew template. */
  lemma EmailCatalogShape()
    ensures EmailCatalog.Keys ==
      {"email-english", "email-hebrew", "professional", "creative", "technical", "startup"}
    ensures forall k :: k in EmailCatalog ==> EmailCatalog[k].id == k
    ensures forall k :: k in EmailCatalog ==> (EmailCatalog[k].language == Hebrew <==> k == "email-hebrew")
  {
  }

  /** `getEmailTemplate(id)`: the catalog entry for a known id, the English
      email template for every other id. */
  function GetEmailTemplate(templateId: string): (t: EmailTemplate)
    ensures templateId in EmailCatalog ==> t == EmailCatalog[templateId]
    ensures templateId !in EmailCatalog ==> t == EmailCatalog["email-english"]
    ensures t in EmailCatalog.Values && t.id in EmailCatalog && EmailCatalog[t.id] == t
  {
    if templateId in EmailCatalog then EmailCatalog[templateId] else EmailEnglish
  }

  /** `language === 'hebrew' ? 'Hebrew' : 'English'`: every language other
      than "hebrew" is written as English. */
  function LanguageName(language: string): string {
    if language == "hebrew" then "Hebrew" else "English"
  }

  const HEBREW_DIRECTIVE := "IMPORTANT: Write the entire email in Hebrew. "
                            + "Use proper Hebrew grammar and formal business language."
  const HEBREW_CLOSING := "Generate the email in Hebrew only. Use formal "
                          + "Hebrew business language."
  const ENGLISH_CLOSING := "Generate the email in English with professional "
                           + "business language."

  /** The "IMPORTANT" line, present only for Hebrew. */
  function LanguageDirective(language: string): string {
    if language == "hebrew" then HEBREW_DIRECTIVE else ""
  }

  /** The closing instruction about the language of the email. */
  function LanguageClosing(language: string): string {
    if language == "hebrew" then HEBREW_CLOSING else ENGLISH_CLOSING
  }

  const EMAIL_INTRO := "\n"
                       + "You are an expert at writing professional "
                       + "job application emails. Create a compelling "
                       + "email expressing interest in a job position.\n\n"
                       + "TEMPLATE REQUIREMENTS:\n- Style: "
  const EMAIL_OUTRO := "\n\nGenerate only the email content, no explanations or metadata.\n"

  /** The description of the template: its style, the prompt's language, its
      tone, structure and instructions. */
  function EmailTemplateBlock(t: EmailTemplate, language: string): string {
    t.name
    + "\n- Language: " + LanguageName(language)
    + "\n- Tone: " + t.tone
    + "\n- Structure: " + Join(t.structure, ", ")
    + "\n\nINSTRUCTIONS:\n" + t.systemPrompt
  }

  /** The five contact lines; a falsy phone, email, LinkedIn or GitHub field
      prints "Not provided", an absent name prints "undefined". */
  function ContactBlock(info: PersonalInfo): string {
    "PERSONAL INFORMATION:\nName: " + Interpolate(info.name)
    + ContactField("\nPhone: ", info.phone)
    + ContactField("\nEmail: ", info.email)
    + ContactField("\nLinkedIn: ", info.linkedin)
    + ContactField("\nGitHub: ", info.github)
  }

  /** One optional contact line: `${field || 'Not provided'}` after its
      label. */
  function ContactField(heading: string, v: Option<string>): string {
    heading + OrElse(v, NOT_PROVIDED)
  }

  /** The numbered requirements; item 6 names the language. */
  function EmailRequirements(language: string): string {
    REQUIREMENTS_HEAD + LanguageRequirement(language) + REQUIREMENTS_TAIL
  }

  /** Items 1 to 5 of the requirements, under their heading. */
  const REQUIREMENTS_HEAD := "REQUIREMENTS:\n"
    + "1. Write a complete professional email (150-200 words)\n"
    + "2. Include appropriate greeting (use recruiter "
    + "name if mentioned in job description)\n"
    + "3. Express clear interest in the specific position\n"
    + "4. Highlight relevant experience from the resume\n"
    + "5. Include the person's contact information naturally\n"

  /** Item 6, which names the language. */
  function LanguageRequirement(language: string): string {
    "6. Use " + LanguageName(language) + " language throughout\n"
  }

  /** Items 7 and 8. */
  const REQUIREMENTS_TAIL := "7. End with a professional closing\n"
    + "8. Make it personal and compelling"

  /** The template literal of `generateEmailPrompt` for an already resolved
      template. */
  function ComposeEmailPrompt(t: EmailTemplate, resumeContent: string, jobDescription: string,
                              info: PersonalInfo, language: string): string
  {
    EMAIL_INTRO + EmailTemplateBlock(t, language) + "\n\n"
    + LanguageDirective(language) + "\n\n"
    + ContactBlock(info) + "\n\n"
    + UserContent(resumeContent, jobDescription) + "\n\n"
    + EmailRequirements(language) + "\n\n"
    + LanguageClosing(language)
    + EMAIL_OUTRO
  }

  /** `generateEmailPrompt(templateId, ..., language)`. */
  function GenerateEmailPrompt(templateId: string, resumeContent: string, jobDescription: string,
                               info: PersonalInfo, language: string): string
  {
    ComposeEmailPrompt(GetEmailTemplate(templateId), resumeContent, jobDescription, info, language)
  }

  /** Each contact line of the prompt shows its field when the field is
      truthy and "Not provided" otherwise. */
  lemma ContactLine(t: EmailTemplate, resumeContent: string, jobDescription: string,
                    info: PersonalInfo, language: string)
    ensures Contains(ComposeEmailPrompt(t, resumeContent, jobDescription, info, language),
                     "\nPhone: " + (if Truthy(info.phone) then info.phone.value else "Not provided"))
    ensures Contains(ComposeEmailPrompt(t, resumeContent, jobDescription, info, language),
                     "\nEmail: " + (if Truthy(info.email) then info.email.value else "Not provided"))
    ensures Contains(ComposeEmailPrompt(t, resumeContent, jobDescription, info, language),
                     "\nLinkedIn: "
                     + (if Truthy(info.linkedin) then info.linkedin.value else "Not provided"))
    ensures Contains(ComposeEmailPrompt(t, resumeContent, jobDescription, info, language),
                     "\nGitHub: " + (if Truthy(info.github) then info.github.value else "Not provided"))
  {
    ContactLinesInBlock(info);
    FieldInPrompt(t, resumeContent, jobDescription, info, language, "\nPhone: ", info.phone);
    FieldInPrompt(t, resumeContent, jobDescription, info, language, "\nEmail: ", info.email);
    FieldInPrompt(t, resumeContent, jobDescription, info, language, "\nLinkedIn: ", info.linkedin);
    FieldInPrompt(t, resumeContent, jobDescription, info, language, "\nGitHub: ", info.github);
  }

  /** The four optional contact lines are blocks of the contact block. */
  lemma ContactLinesInBlock(info: PersonalInfo)
    ensures Contains(ContactBlock(info), ContactField("\nPhone: ", info.phone))
    ensures Contains(ContactBlock(info), ContactField("\nEmail: ", info.email))
    ensures Contains(ContactBlock(info), ContactField("\nLinkedIn: ", info.linkedin))
    ensures Contains(ContactBlock(info), ContactField("\nGitHub: ", info.github))
  {
    ContainsPiecesOfFive("PERSONAL INFORMATION:\nName: " + Interpolate(info.name),
                         ContactField("\nPhone: ", info.phone),
                         ContactField("\nEmail: ", info.email),
                         ContactField("\nLinkedIn: ", info.linkedin),
                         ContactField("\nGitHub: ", info.github));
  }

  /** A line of the contact block, shown in the prompt. */
  lemma FieldInPrompt(t: EmailTemplate, resumeContent: string, jobDescription: string,
                      info: PersonalInfo, language: string, heading: string, v: Option<string>)
    requires Contains(ContactBlock(info), ContactField(heading, v))
    ensures Contains(ComposeEmailPrompt(t, resumeContent, jobDescription, info, language),
                     heading + (if Truthy(v) then v.value else "Not provided"))
  {
    EmailPromptCarries(t, resumeContent, jobDescription, info, language);
    ContainsTransitive(ComposeEmailPrompt(t, resumeContent, jobDescription, info, language),
                       ContactBlock(info), ContactField(heading, v));
    ContactFieldShown(heading, v);
  }

  /** A contact line is its heading followed by the field when the field is
      truthy, and by "Not provided" otherwise. */
  lemma ContactFieldShown(heading: string, v: Option<string>)
    ensures ContactField(heading, v) == heading + (if Truthy(v) then v.value else "Not provided")
  {
  }

  /** The prompt carries the template description, the contact block and the
      résumé and job description. */
  lemma EmailPromptCarries(t: EmailTemplate, resumeContent: string, jobDescription: string,
                           info: PersonalInfo, language: string)
    ensures var p := ComposeEmailPrompt(t, resumeContent, jobDescription, info, language);
      && Contains(p, EmailTemplateBlock(t, language))
      && Contains(p, ContactBlock(info))
      && Contains(p, "RESUME CONTENT:\n" + resumeContent + "\n\nJOB DESCRIPTION:\n" + jobDescription)
  {
    var tb := EmailTemplateBlock(t, language);
    var cb := ContactBlock(info);
    var uc := UserContent(resumeContent, jobDescription);
    var p1 := EMAIL_INTRO + tb;
    ContainsMiddle(EMAIL_INTRO, tb, []);
    assert p1 + [] == p1;
    var p2 := p1 + "\n\n";
    ContainsLeft(p1, "\n\n", tb);
    var p3 := p2 + LanguageDirective(language);
    ContainsLeft(p2, LanguageDirective(language), tb);
    var p4 := p3 + "\n\n";
    ContainsLeft(p3, "\n\n", tb);
    var p5 := p4 + cb;
    ContainsLeft(p4, cb, tb);
    ContainsMiddle(p4, cb, []);
    assert p5 + [] == p5;
    var p6 := p5 + "\n\n";
    ContainsLeft(p5, "\n\n", tb);
    ContainsLeft(p5, "\n\n", cb);
    var p7 := p6 + uc;
    ContainsLeft(p6, uc, tb);
    ContainsLeft(p6, uc, cb);
    ContainsMiddle(p6, uc, []);
    assert p7 + [] == p7;
    EmailPromptTail(p7, t, resumeContent, jobDescription, info, language, tb);
    EmailPromptTail(p7, t, resumeContent, jobDescription, info, language, cb);
    EmailPromptTail(p7, t, resumeContent, jobDescription, info, language, uc);
  }

  /** Whatever the part up to the résumé and job description contains, the
      prompt contains. */
  lemma EmailPromptTail(p7: string, t: EmailTemplate, resumeContent: string, jobDescription: string,
                        info: PersonalInfo, language: string, sub: string)
    requires p7 == EMAIL_INTRO + EmailTemplateBlock(t, language) + "\n\n"
      + LanguageDirective(language) + "\n\n"
      + ContactBlock(info) + "\n\n"
      + UserContent(resumeContent, jobDescription)
    requires Contains(p7, sub)
    ensures Contains(ComposeEmailPrompt(t, resumeContent, jobDescription, info, language), sub)
  {
    var p8 := p7 + "\n\n";
    ContainsLeft(p7, "\n\n", sub);
    var p9 := p8 + EmailRequirements(language);
    ContainsLeft(p8, EmailRequirements(language), sub);
    var p10 := p9 + "\n\n";
    ContainsLeft(p9, "\n\n", sub);
    var p11 := p10 + LanguageClosing(language);
    ContainsLeft(p10, LanguageClosing(language), sub);
    ContainsLeft(p11, EMAIL_OUTRO, sub);
  }

  /** The language of the prompt comes from the request, never from the
      template: a template's own `language` field has no effect on it. */
  lemma TemplateLanguageIgnored(t: EmailTemplate, resumeContent: string, jobDescription: string,
                                info: PersonalInfo, language: string, other: Language)
    ensures ComposeEmailPrompt(t.(language := other), resumeContent, jobDescription, info, language)
         == ComposeEmailPrompt(t, resumeContent, jobDescription, info, language)
  {
  }

  /** A Hebrew request and any other request give different prompts, and
      every language other than "hebrew" gives the English prompt. */
  lemma EnglishUnlessHebrew(t: EmailTemplate, resumeContent: string, jobDescription: string,
                            info: PersonalInfo, language: string)
    ensures (ComposeEmailPrompt(t, resumeContent, jobDescription, info, language)
          == ComposeEmailPrompt(t, resumeContent, jobDescription, info, "english"))
        <==> language != "hebrew"
  {
    if language == "hebrew" {
      HebrewPromptIsLonger(t, resumeContent, jobDescription, info);
    } else {
      NonHebrewParts(t, language);
    }
  }

  /** Every language-dependent part of the prompt is the same for any
      language other than "hebrew" as for "english". */
  lemma NonHebrewParts(t: EmailTemplate, language: string)
    requires language != "hebrew"
    ensures EmailTemplateBlock(t, language) == EmailTemplateBlock(t, "english")
    ensures LanguageDirective(language) == LanguageDirective("english")
    ensures EmailRequirements(language) == EmailRequirements("english")
    ensures LanguageClosing(language) == LanguageClosing("english")
  {
  }

  /** The Hebrew prompt is 103 characters longer than the English one. */
  lemma HebrewPromptIsLonger(t: EmailTemplate, resumeContent: string, jobDescription: string,
                             info: PersonalInfo)
    ensures |ComposeEmailPrompt(t, resumeContent, jobDescription, info, "hebrew")|
         == |ComposeEmailPrompt(t, resumeContent, jobDescription, info, "english")| + 103
  {
    EmailPromptLength(t, resumeContent, jobDescription, info, "hebrew");
    EmailPromptLength(t, resumeContent, jobDescription, info, "english");
    LanguagePartLengths(t);
    DirectiveLengths();
  }

  /** The template block and the requirements name the language, and
      "Hebrew" is one letter shorter than "English". */
  lemma LanguagePartLengths(t: EmailTemplate)
    ensures |EmailTemplateBlock(t, "hebrew")| + 1 == |EmailTemplateBlock(t, "english")|
    ensures |EmailRequirements("hebrew")| + 1 == |EmailRequirements("english")|
  {
  }

  /** The lengths of the directives before and after the body of the
      prompt, for Hebrew and for English. */
  lemma DirectiveLengths()
    ensures |LanguageDirective("hebrew")| == 100 && LanguageDirective("english") == ""
    ensures |LanguageClosing("hebrew")| == 71 && |LanguageClosing("english")| == 66
  {
  }

  /** The length of the prompt, part by part. */
  lemma EmailPromptLength(t: EmailTemplate, resumeContent: string, jobDescription: string,
                          info: PersonalInfo, language: string)
    ensures |ComposeEmailPrompt(t, resumeContent, jobDescription, info, language)|
         == |EMAIL_INTRO| + |EmailTemplateBlock(t, language)| + 2
          + |LanguageDirective(language)| + 2
          + |ContactBlock(info)| + 2
          + |UserContent(resumeContent, jobDescription)| + 2
          + |EmailRequirements(language)| + 2
          + |LanguageClosing(language)|
          + |EMAIL_OUTRO|
  {
  }

  /** The language-dependent parts of any prompt: the "IMPORTANT" line, the
      closing instruction and requirement 6 all appear in it. */
  lemma LanguagePartsShown(t: EmailTemplate, resumeContent: string, jobDescription: string,
                           info: PersonalInfo, language: string)
    ensures var p := ComposeEmailPrompt(t, resumeContent, jobDescription, info, language);
      && Contains(p, LanguageDirective(language))
      && Contains(p, LanguageClosing(language))
      && Contains(p, LanguageRequirement(language))
  {
    var ld := LanguageDirective(language);
    var r := EmailRequirements(language);
    var lc := LanguageClosing(language);
    var p2 := EMAIL_INTRO + EmailTemplateBlock(t, language) + "\n\n";
    var p3 := p2 + ld;
    ContainsMiddle(p2, ld, []);
    assert p3 + [] == p3;
    var p4 := p3 + "\n\n";
    ContainsLeft(p3, "\n\n", ld);
    var p5 := p4 + ContactBlock(info);
    ContainsLeft(p4, ContactBlock(info), ld);
    var p6 := p5 + "\n\n";
    ContainsLeft(p5, "\n\n", ld);
    var p7 := p6 + UserContent(resumeContent, jobDescription);
    ContainsLeft(p6, UserContent(resumeContent, jobDescription), ld);
    EmailPromptTail(p7, t, resumeContent, jobDescription, info, language, ld);
    var p8 := p7 + "\n\n";
    var p9 := p8 + r;
    ContainsMiddle(p8, r, []);
    assert p9 + [] == p9;
    var p10 := p9 + "\n\n";
    ContainsLeft(p9, "\n\n", r);
    var p11 := p10 + lc;
    ContainsLeft(p10, lc, r);
    ContainsLeft(p11, EMAIL_OUTRO, r);
    ContainsMiddle(p10, lc, EMAIL_OUTRO);
    ContainsMiddle(REQUIREMENTS_HEAD, LanguageRequirement(language), REQUIREMENTS_TAIL);
    ContainsTransitive(p11 + EMAIL_OUTRO, r, LanguageRequirement(language));
  }

  /** For "hebrew" the prompt carries the Hebrew "IMPORTANT" line, the Hebrew
      closing and a requirement to use Hebrew; for any other language it has
      no "IMPORTANT" line and carries the English closing and a requirement
      to use English. */
  lemma LanguageDirectives(t: EmailTemplate, resumeContent: string, jobDescription: string,
                           info: PersonalInfo, language: string)
    ensures var p := ComposeEmailPrompt(t, resumeContent, jobDescription, info, language);
      language == "hebrew" ==>
        && Contains(p, HEBREW_DIRECTIVE)
        && Contains(p, HEBREW_CLOSING)
        && Contains(p, "6. Use " + "Hebrew" + " language throughout\n")
    ensures var p := ComposeEmailPrompt(t, resumeContent, jobDescription, info, language);
      language != "hebrew" ==>
        && LanguageDirective(language) == ""
        && Contains(p, ENGLISH_CLOSING)
        && Contains(p, "6. Use " + "English" + " language throughout\n")
  {
    LanguagePartsShown(t, resumeContent, jobDescription, info, language);
  }
}
