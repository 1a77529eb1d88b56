/** The recruiter-message template catalog (one casual Hebrew template),
    its lookup, and the message prompt composer. */
module MessageTemplates {
  import opened Wrappers
  import opened Js
  import opened Strings
  import opened PromptText

  /** A message template; its `language` is always Hebrew, so it is not
      stored. */
  datatype MessageTemplate = MessageTemplate(
    id: string,
    name: string,
    systemPrompt: string,
    structure: seq<string>,
    tone: string,
    platform: string)

  const MessageCasual := MessageTemplate(
    "message-casual",
    "Casual Recruiter Message",
    "Create a casual, friendly message in Hebrew "
    + "for contacting recruiters on LinkedIn or "
    + "direct messaging. The message should be "
    + "conversational, not formal, and written "
    + "in modern colloquial Hebrew as used in Israeli "
    + "tech industry communications.",
    ["Casual Hebrew greeting with recruiter name",
     "Brief self-introduction with name",
     "Mention of specific job post or opportunity",
     "Quick background highlights (military/education)",
     "Current work status if relevant",
     "Polite request to send CV",
     "Thank you and casual closing"],
    "casual, friendly, conversational in Hebrew",
    "LinkedIn/Direct Message")

  /** The `messageTemplates` record: the one casual template. */
  const MessageCatalog: map<string, MessageTemplate> := map["message-casual" := MessageCasual]

  /** The message catalog holds the casual template alone, filed under its
      own id. */
  lemma MessageCatalogShape()
    ensures MessageCatalog.Keys == {"message-casual"}
    ensures MessageCatalog["message-casual"].id == "message-casual"
  {
  }

  /** `getMessageTemplate(id)`: since the fallback is the only entry, every
      id resolves to the casual template. */
  function GetMessageTemplate(templateId: string): (t: MessageTemplate)
    ensures t == MessageCasual && t.id == "message-casual"
    ensures t in MessageCatalog.Values && MessageCatalog[t.id] == t
  {
    if templateId in MessageCatalog then MessageCatalog[templateId] else MessageCatalog["message-casual"]
  }

  const MESSAGE_INTRO := "\n"
                         + "You are an expert at writing casual, friendly "
                         + "messages in Hebrew for recruiting communications "
                         + "in Israel's tech industry.\n\n"
                         + "TEMPLATE REQUIREMENTS:\n- Style: "

  /** The "IMPORTANT" guidance on register and length. */
  const MESSAGE_GUIDELINES := "IMPORTANT: \n"
                              + "- Write in casual, modern Hebrew as used "
                              + "in Israeli tech/startup industry\n"
                              + "- Use informal language but remain respectful\n"
                              + "- Keep it brief and conversational (80-120 words)\n"
                              + "- Include natural Hebrew expressions like "
                              + "\"אהלן\", \"מה הולך\", etc.\n"
                              + "- Sound like a young professional reaching "
                              + "out to a recruiter"

  /** The example message, the numbered requirements and the closing
      instruction. */
  const MESSAGE_TAIL := "EXAMPLE STYLE (follow this tone and structure):\n"
                        + "\"אהלן [שם המגייס] מה הולך? שמי [שם], הנני "
                        + "בוגר יחידת 8200 ובוגר תואר ראשון במדעי המחשב, "
                        + "כעת עובד במשרה חלקית במשרד רה״מ. ראיתי את "
                        + "הפוסט בלינקדאין שפרסמת אתמול לגבי משרת ג׳וניור "
                        + "שיש אצלכם, הייתי שמח לשלוח לך את הקו״ח שלי "
                        + "עבור הגשת מועמדות/סיוע שלך, אם אפשר כמובן "
                        + "המון תודה!\"\n\n"
                        + "REQUIREMENTS:\n"
                        + "1. Write in casual Hebrew (80-120 words)\n"
                        + "2. Start with casual greeting using recruiter "
                        + "name if available\n"
                        + "3. Include the person's name and brief background\n"
                        + "4. Reference the specific job posting\n"
                        + "5. Mention key qualifications naturally\n"
                        + "6. Include polite request to send CV\n"
                        + "7. End with casual thank you\n"
                        + "8. Use modern Israeli Hebrew expressions\n"
                        + "9. Sound natural and conversational\n\n"
                        + "Generate only the Hebrew message content, "
                        + "no explanations or metadata.\n"

  /** The description of the template: style, platform, the fixed language
      line, tone, structure and instructions. */
  function MessageTemplateBlock(t: MessageTemplate): string {
    t.name
    + "\n- Platform: " + t.platform
    + "\n- Language: Hebrew (colloquial, modern Israeli Hebrew)"
    + "\n- Tone: " + t.tone
    + "\n- Structure: " + Join(t.structure, ", ")
    + "\n\nINSTRUCTIONS:\n" + t.systemPrompt
  }

  /** Three contact lines only: name, phone and email. */
  function MessageContactBlock(info: PersonalInfo): string {
    "PERSONAL INFORMATION:\nName: " + Interpolate(info.name)
    + "\nPhone: " + OrElse(info.phone, NOT_PROVIDED)
    + "\nEmail: " + OrElse(info.email, NOT_PROVIDED)
  }

  /** The template literal of `generateMessagePrompt` for an already
      resolved template. */
  function ComposeMessagePrompt(t: MessageTemplate, resumeContent: string, jobDescription: string,
                                info: PersonalInfo): string
  {
    MESSAGE_INTRO + MessageTemplateBlock(t) + "\n\n"
    + MESSAGE_GUIDELINES + "\n\n"
    + MessageContactBlock(info) + "\n\n"
    + UserContent(resumeContent, jobDescription) + "\n\n"
    + MESSAGE_TAIL
  }

  /** `generateMessagePrompt(templateId, ...)`. */
  function GenerateMessagePrompt(templateId: string, resumeContent: string, jobDescription: string,
                                 info: PersonalInfo): string
  {
    ComposeMessagePrompt(GetMessageTemplate(templateId), resumeContent, jobDescription, info)
  }

  /** The template id has no effect on the message prompt. */
  lemma MessagePromptIgnoresId(id1: string, id2: string, resumeContent: string,
                               jobDescription: string, info: PersonalInfo)
    ensures GenerateMessagePrompt(id1, resumeContent, jobDescription, info)
         == GenerateMessagePrompt(id2, resumeContent, jobDescription, info)
  {
  }

  /** The LinkedIn and GitHub fields have no effect on the message prompt. */
  lemma MessagePromptIgnoresProfiles(templateId: string, resumeContent: string,
                                     jobDescription: string, info: PersonalInfo,
                                     linkedin: Option<string>, github: Option<string>)
    ensures GenerateMessagePrompt(templateId, resumeContent, jobDescription,
                                  info.(linkedin := linkedin, github := github))
         == GenerateMessagePrompt(templateId, resumeContent, jobDescription, info)
  {
  }

  /** The prompt carries the template description, the three contact lines
      and the résumé and job description. */
  lemma MessagePromptCarries(t: MessageTemplate, resumeContent: string, jobDescription: string,
                             info: PersonalInfo)
    ensures var p := ComposeMessagePrompt(t, resumeContent, jobDescription, info);
      && Contains(p, MessageTemplateBlock(t))
      && Contains(p, MessageContactBlock(info))
      && Contains(p, "RESUME CONTENT:\n" + resumeContent + "\n\nJOB DESCRIPTION:\n" + jobDescription)
  {
    var tb := MessageTemplateBlock(t);
    var cb := MessageContactBlock(info);
    var uc := UserContent(resumeContent, jobDescription);
    var p1 := MESSAGE_INTRO + tb;
    ContainsMiddle(MESSAGE_INTRO, tb, []);
    assert p1 + [] == p1;
    var p2 := p1 + "\n\n";
    ContainsLeft(p1, "\n\n", tb);
    var p3 := p2 + MESSAGE_GUIDELINES;
    ContainsLeft(p2, MESSAGE_GUIDELINES, tb);
    var p4 := p3 + "\n\n";
    ContainsLeft(p3, "\n\n", tb);
    var p5 := p4 + cb;
    ContainsLeft(p4, cb, tb);
    ContainsMiddle(p4, cb, []);
    assert p5 + [] == p5;
    var p6 := p5 + "\n\n";
    ContainsLeft(p5, "\n\n", tb);
    ContainsLeft(p5, "\n\n", cb);
    var p7 := p6 + uc;
    ContainsLeft(p6, uc, tb);
    ContainsLeft(p6, uc, cb);
    ContainsMiddle(p6, uc, []);
    assert p7 + [] == p7;
    var p8 := p7 + "\n\n";
    ContainsLeft(p7, "\n\n", tb);
    ContainsLeft(p7, "\n\n", cb);
    ContainsLeft(p7, "\n\n", uc);
    ContainsLeft(p8, MESSAGE_TAIL, tb);
    ContainsLeft(p8, MESSAGE_TAIL, cb);
    ContainsLeft(p8, MESSAGE_TAIL, uc);
  }
}
