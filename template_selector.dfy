/** The template picker: the list of styles on offer, the filter by content
    type, and the rule that replaces a selection the current content type
    does not offer. */
module TemplateSelector {
  import opened Wrappers
  import opened TemplateSystem
  import opened EmailTemplates
  import opened MessageTemplates

  /** What is being generated. */
  datatype ContentType = CoverLetter | Email | Message

  /** An entry of the picker's list. */
  datatype Template = Template(
    id: string,
    name: string,
    description: string,
    tone: string,
    preview: string,
    contentTypes: seq<ContentType>)

  const ProfessionalChoice := Template(
    "professional",
    "Professional",
    "Clean and formal tone perfect for corporate positions",
    "Formal, structured, and business-focused",
    "Dear Hiring Manager,\n\n"
    + "I am writing to express my strong interest "
    + "in the [Position] role...",
    [CoverLetter, Email])

  const CreativeChoice := Template(
    "creative",
    "Creative",
    "Engaging style for design and creative roles",
    "Innovative, personality-driven, and expressive",
    "Hello [Company Team]!\n\n"
    + "Your [Position] opening caught my eye because...",
    [CoverLetter, Email])

  const TechnicalChoice := Template(
    "technical",
    "Technical",
    "Detailed approach for engineering positions",
    "Technical, precise, and solution-oriented",
    "Dear Technical Team,\n\n"
    + "As a [Role] with expertise in [Technologies]...",
    [CoverLetter, Email])

  const StartupChoice := Template(
    "startup",
    "Startup",
    "Dynamic tone for fast-paced environments",
    "Energetic, growth-minded, and adaptable",
    "Hi [Team],\n\n"
    + "I'm excited about the opportunity to contribute "
    + "to [Company]'s mission...",
    [CoverLetter, Email])

  const EmailEnglishChoice := Template(
    "email-english",
    "Professional Email (English)",
    "Formal email for international companies",
    "Professional, concise, and respectful",
    "Dear [Recruiter Name],\n\n"
    + "I am reaching out to express my interest "
    + "in the [Position]...",
    [Email])

  const EmailHebrewChoice := Template(
    "email-hebrew",
    "Professional Email (Hebrew)",
    "Formal email for Israeli companies",
    "Professional, respectful, in Hebrew",
    "שלום [שם המגייס],\n\n"
    + "אני פונה אליך כדי להביע את העניין שלי בתפקיד [התפקיד]...",
    [Email])

  const MessageCasualChoice := Template(
    "message-casual",
    "Casual Recruiter Message",
    "Friendly message for LinkedIn or direct contact",
    "Casual, friendly, conversational in Hebrew",
    "היי [שם],\n\nמה הולך? שמי [שם], ראיתי את הפוסט שלך לגבי...",
    [Message])

  /** The picker's `templates` list, in display order. */
  const Catalog: seq<Template> := [
    ProfessionalChoice,
    CreativeChoice,
    TechnicalChoice,
    StartupChoice,
    EmailEnglishChoice,
    EmailHebrewChoice,
    MessageCasualChoice]

  /** `ts.filter(t => t.contentTypes.includes(contentType))`: the entries
      offered for the content type. */
  function Filter(ts: seq<Template>, contentType: ContentType): (r: seq<Template>)
    ensures |r| <= |ts|
    ensures forall t :: t in r <==> t in ts && contentType in t.contentTypes
  {
    if ts == [] then []
    else if contentType in ts[0].contentTypes then [ts[0]] + Filter(ts[1..], contentType)
    else Filter(ts[1..], contentType)
  }

  /** `availableTemplates`. */
  function AvailableTemplates(contentType: ContentType): seq<Template> {
    Filter(Catalog, contentType)
  }

  /** `ts.find(t => t.id === id)`: the first entry with that id. */
  function Find(ts: seq<Template>, id: string): (r: Option<Template>)
    ensures r.Some? ==> r.value in ts && r.value.id == id
    ensures r.None? <==> forall t :: t in ts ==> t.id != id
    ensures r.Some? ==>
      exists i :: 0 <= i < |ts| && ts[i] == r.value && forall j :: 0 <= j < i ==> ts[j].id != id
  {
    if ts == [] then None
    else if ts[0].id == id then Some(ts[0])
    else
      var r := Find(ts[1..], id);
      if r.Some? then
        var i :|
          0 <= i < |ts| - 1 && ts[1..][i] == r.value && forall j :: 0 <= j < i ==> ts[1..][j].id != id;
        assert ts[i + 1] == r.value;
        assert forall j :: 0 <= j < i + 1 ==> ts[j].id != id by {
          forall j | 0 <= j < i + 1 ensures ts[j].id != id {
            if j > 0 { assert ts[j] == ts[1..][j - 1]; }
          }
        }
        r
      else r
  }

  /** The selection once the picker's effect has run: kept when the content
      type offers it, otherwise `availableTemplates[0]?.id || 'professional'`.
      The result is always offered, unless nothing is, and then it is
      "professional". */
  function AutoSelect(contentType: ContentType, selected: string): (r: string)
    ensures Find(AvailableTemplates(contentType), selected).Some? ==> r == selected
    ensures Find(AvailableTemplates(contentType), selected).None? ==>
      r == (if AvailableTemplates(contentType) != [] && AvailableTemplates(contentType)[0].id != ""
            then AvailableTemplates(contentType)[0].id else "professional")
    ensures AvailableTemplates(contentType) != [] ==>
      exists t :: t in AvailableTemplates(contentType) && t.id == r
  {
    var available := AvailableTemplates(contentType);
    if Find(available, selected).Some? then selected
    else if available != [] && available[0].id != "" then available[0].id
    else "professional"
  }

  /** Filtering keeps catalog order: the filter of a concatenation is the
      concatenation of the filters. */
  lemma {:induction false} FilterAppend(a: seq<Template>, b: seq<Template>, contentType: ContentType)
    ensures Filter(a + b, contentType) == Filter(a, contentType) + Filter(b, contentType)
  {
    if a != [] {
      assert (a + b)[1..] == a[1..] + b;
      FilterAppend(a[1..], b, contentType);
    } else {
      assert a + b == b;
    }
  }

  /** A list whose every entry offers the content type passes whole. */
  lemma {:induction false} FilterAll(ts: seq<Template>, contentType: ContentType)
    requires forall i :: 0 <= i < |ts| ==> contentType in ts[i].contentTypes
    ensures Filter(ts, contentType) == ts
  {
    if ts != [] {
      FilterAll(ts[1..], contentType);
      assert [ts[0]] + ts[1..] == ts;
    }
  }

  /** A list none of whose entries offers the content type filters to
      nothing. */
  lemma {:induction false} FilterNone(ts: seq<Template>, contentType: ContentType)
    requires forall i :: 0 <= i < |ts| ==> contentType !in ts[i].contentTypes
    ensures Filter(ts, contentType) == []
  {
    if ts != [] {
      FilterNone(ts[1..], contentType);
    }
  }

  /** Offered entries followed by entries that are not: the filter keeps
      exactly the first part. */
  lemma FilterKeepsPrefix(a: seq<Template>, b: seq<Template>, contentType: ContentType)
    requires forall i :: 0 <= i < |a| ==> contentType in a[i].contentTypes
    requires forall i :: 0 <= i < |b| ==> contentType !in b[i].contentTypes
    ensures Filter(a + b, contentType) == a
  {
    FilterAppend(a, b, contentType);
    FilterAll(a, contentType);
    FilterNone(b, contentType);
    assert a + [] == a;
  }

  /** Entries that are not offered followed by entries that are: the filter
      keeps exactly the second part. */
  lemma FilterKeepsSuffix(a: seq<Template>, b: seq<Template>, contentType: ContentType)
    requires forall i :: 0 <= i < |a| ==> contentType !in a[i].contentTypes
    requires forall i :: 0 <= i < |b| ==> contentType in b[i].contentTypes
    ensures Filter(a + b, contentType) == b
  {
    FilterAppend(a, b, contentType);
    FilterNone(a, contentType);
    FilterAll(b, contentType);
    assert [] + b == b;
  }

  /** A seven-entry list whose first four entries are cover-letter styles
      and whose last three are not filters to those four. */
  lemma CoverLetterCut(p: Template, c: Template, t: Template, s: Template,
                       ee: Template, eh: Template, mc: Template)
    requires CoverLetter in p.contentTypes && CoverLetter in c.contentTypes
    requires CoverLetter in t.contentTypes && CoverLetter in s.contentTypes
    requires CoverLetter !in ee.contentTypes && CoverLetter !in eh.contentTypes
    requires CoverLetter !in mc.contentTypes
    ensures Filter([p, c, t, s, ee, eh, mc], CoverLetter) == [p, c, t, s]
  {
    assert [p, c, t, s, ee, eh, mc] == [p, c, t, s] + [ee, eh, mc];
    FilterKeepsPrefix([p, c, t, s], [ee, eh, mc], CoverLetter);
  }

  /** A seven-entry list whose first six entries offer email and whose last
      does not filters to those six. */
  lemma EmailCut(p: Template, c: Template, t: Template, s: Template,
                 ee: Template, eh: Template, mc: Template)
    requires Email in p.contentTypes && Email in c.contentTypes
    requires Email in t.contentTypes && Email in s.contentTypes
    requires Email in ee.contentTypes && Email in eh.contentTypes
    requires Email !in mc.contentTypes
    ensures Filter([p, c, t, s, ee, eh, mc], Email) == [p, c, t, s, ee, eh]
  {
    assert [p, c, t, s, ee, eh, mc] == [p, c, t, s, ee, eh] + [mc];
    FilterKeepsPrefix([p, c, t, s, ee, eh], [mc], Email);
  }

  /** A seven-entry list whose only message entry is the last filters to
      that entry. */
  lemma MessageCut(p: Template, c: Template, t: Template, s: Template,
                   ee: Template, eh: Template, mc: Template)
    requires Message !in p.contentTypes && Message !in c.contentTypes
    requires Message !in t.contentTypes && Message !in s.contentTypes
    requires Message !in ee.contentTypes && Message !in eh.contentTypes
    requires Message in mc.contentTypes
    ensures Filter([p, c, t, s, ee, eh, mc], Message) == [mc]
  {
    assert [p, c, t, s, ee, eh, mc] == [p, c, t, s, ee, eh] + [mc];
    FilterKeepsSuffix([p, c, t, s, ee, eh], [mc], Message);
  }

  /** The cover-letter picker offers the four styles, in catalog order. */
  lemma CoverLetterOffers()
    ensures AvailableTemplates(CoverLetter) ==
      [ProfessionalChoice, CreativeChoice, TechnicalChoice, StartupChoice]
  {
    CoverLetterCut(ProfessionalChoice, CreativeChoice, TechnicalChoice, StartupChoice,
                   EmailEnglishChoice, EmailHebrewChoice, MessageCasualChoice);
  }

  /** The email picker offers the four styles and then the two email
      templates. */
  lemma EmailOffers()
    ensures AvailableTemplates(Email) ==
      [ProfessionalChoice, CreativeChoice, TechnicalChoice, StartupChoice,
       EmailEnglishChoice, EmailHebrewChoice]
  {
    EmailCut(ProfessionalChoice, CreativeChoice, TechnicalChoice, StartupChoice,
             EmailEnglishChoice, EmailHebrewChoice, MessageCasualChoice);
  }

  /** The message picker offers the casual message alone. */
  lemma MessageOffers()
    ensures AvailableTemplates(Message) == [MessageCasualChoice]
  {
    MessageCut(ProfessionalChoice, CreativeChoice, TechnicalChoice, StartupChoice,
               EmailEnglishChoice, EmailHebrewChoice, MessageCasualChoice);
  }

  /** The ids in the list are pairwise distinct. */
  lemma CatalogIdsUnique()
    ensures forall i, j :: 0 <= i < j < |Catalog| ==> Catalog[i].id != Catalog[j].id
  {
  }

  /** Running the effect again changes nothing. */
  lemma AutoSelectIdempotent(contentType: ContentType, selected: string)
    ensures AutoSelect(contentType, AutoSelect(contentType, selected)) == AutoSelect(contentType, selected)
  {
  }

  /** Switching to email with a selection email does not offer picks
      "professional", the first email-capable entry. */
  lemma EmailFallsBackToProfessional(selected: string)
    requires forall t :: t in Catalog && Email in t.contentTypes ==> t.id != selected
    ensures AutoSelect(Email, selected) == "professional"
  {
    EmailOffers();
  }

  /** Every cover-letter style the picker offers names a template of the
      cover-letter catalog, so the server never falls back for it. */
  lemma CoverLetterIdsResolve()
    ensures forall t :: t in AvailableTemplates(CoverLetter) ==> t.id in Templates
  {
    CoverLetterOffers();
    CatalogShape();
    StylesWithin(ProfessionalChoice, CreativeChoice, TechnicalChoice, StartupChoice,
                 Templates.Keys);
  }

  /** Four entries whose ids are all keys: every entry of the list of them
      has its id among the keys. */
  lemma StylesWithin(p: Template, c: Template, t: Template, s: Template, keys: set<string>)
    requires p.id in keys && c.id in keys && t.id in keys && s.id in keys
    ensures forall e :: e in [p, c, t, s] ==> e.id in keys
  {
  }

  /** Every template the email picker offers names a template of the email
      catalog. */
  lemma EmailIdsResolve()
    ensures forall t :: t in AvailableTemplates(Email) ==> t.id in EmailCatalog
  {
    EmailOffers();
    EmailCatalogShape();
    EntriesWithin(ProfessionalChoice, CreativeChoice, TechnicalChoice, StartupChoice,
                  EmailEnglishChoice, EmailHebrewChoice, EmailCatalog.Keys);
  }

  /** Six entries whose ids are all keys: every entry of the list of them
      has its id among the keys. */
  lemma EntriesWithin(p: Template, c: Template, t: Template, s: Template,
                      ee: Template, eh: Template, keys: set<string>)
    requires p.id in keys && c.id in keys && t.id in keys && s.id in keys
    requires ee.id in keys && eh.id in keys
    ensures forall e :: e in [p, c, t, s, ee, eh] ==> e.id in keys
  {
  }

  /** The one message template the picker offers names the message
      catalog's entry. */
  lemma MessageIdsResolve()
    ensures forall t :: t in AvailableTemplates(Message) ==> t.id in MessageCatalog
  {
    MessageOffers();
  }

  /** Whatever was selected before, the cover-letter picker's effect leaves
      a selection the cover-letter route resolves without falling back. */
  lemma AutoSelectResolves(selected: string)
    ensures AutoSelect(CoverLetter, selected) in Templates
  {
    CoverLetterOffers();
    CoverLetterIdsResolve();
  }
}
