/** The records and enumerations of the application's data model
    (src/types/index.ts). Dates become integer timestamps supplied by the
    caller; optional fields (`field?: T`) and nullable ones (`T | null`) become
    Option values. */
module Types {
  import opened Wrappers

  /** A point in time, in milliseconds; every `new Date()` of the source is a
      parameter of this type. */
  type Timestamp = int

  datatype User = User(id: string, email: string, name: Option<string>, createdAt: Timestamp)

  datatype LandingPage = LandingPage(
    id: string,
    userId: string,
    title: string,
    templateId: string,
    content: PageContent,
    settings: PageSettings,
    isPublished: bool,
    slug: string,
    createdAt: Timestamp,
    updatedAt: Timestamp)

  /** `hero`, `cta` and `footer` are always present; `features` and `form` are optional. */
  datatype PageContent = PageContent(
    hero: HeroSection,
    features: Option<seq<FeatureSection>>,
    cta: CTASection,
    footer: FooterSection,
    form: Option<FormSection>)

  datatype HeroSection = HeroSection(
    title: string,
    subtitle: string,
    backgroundImage: Option<string>,
    backgroundColor: string,
    textColor: string,
    buttonText: string,
    buttonColor: string)

  datatype FeatureSection = FeatureSection(
    id: string, title: string, description: string, icon: Option<string>, image: Option<string>)

  datatype CTASection = CTASection(
    title: string, subtitle: string, buttonText: string, buttonColor: string, backgroundColor: string)

  datatype FooterSection = FooterSection(
    text: string, links: Option<seq<FooterLink>>, backgroundColor: string, textColor: string)

  datatype FooterLink = FooterLink(text: string, url: string)

  datatype FormSection = FormSection(
    id: string, title: string, fields: seq<FormField>, submitButtonText: string, successMessage: string)

  /** The four kinds of input a lead-capture form field can be. */
  datatype FieldType = Text | Email | Textarea | Phone

  /** `type` and `label` are Dafny keywords: here they are `fieldType` and `fieldLabel`. */
  datatype FormField = FormField(
    id: string, fieldType: FieldType, fieldLabel: string, placeholder: string, required: bool)

  /** One visitor's entry: field id to the value typed in. */
  datatype FormSubmission = FormSubmission(
    id: string,
    landingPageId: string,
    data: map<string, string>,
    submittedAt: Timestamp,
    ipAddress: Option<string>)

  datatype PageSettings = PageSettings(
    primaryColor: string,
    secondaryColor: string,
    fontFamily: string,
    customDomain: Option<string>,
    analyticsId: Option<string>,
    seoTitle: Option<string>,
    seoDescription: Option<string>)

  datatype Category = Business | Personal | Event | Product

  datatype Template = Template(
    id: string,
    name: string,
    description: string,
    thumbnail: string,
    category: Category,
    defaultContent: PageContent,
    defaultSettings: PageSettings)

  datatype AuthState = AuthState(user: Option<User>, isLoading: bool, error: Option<string>)

  datatype PagesState = PagesState(
    pages: seq<LandingPage>, currentPage: Option<LandingPage>, isLoading: bool, error: Option<string>)

  datatype TemplatesState = TemplatesState(templates: seq<Template>, isLoading: bool, error: Option<string>)

  /** The whole application state: exactly the three domains. */
  datatype AppState = AppState(auth: AuthState, pages: PagesState, templates: TemplatesState)

  // ---------------------------------------------------------------------
  // The string unions `type` and `category` as they appear in stored JSON.

  function FieldTypeName(t: FieldType): string
  {
    match t
    case Text => "text"
    case Email => "email"
    case Textarea => "textarea"
    case Phone => "phone"
  }

  /** Reads a field type from its stored name; exactly four names are accepted. */
  function ParseFieldType(s: string): (r: Option<FieldType>)
    ensures r.Some? <==> s == "text" || s == "email" || s == "textarea" || s == "phone"
    ensures r.Some? ==> FieldTypeName(r.value) == s
  {
    if s == "text" then Some(Text)
    else if s == "email" then Some(Email)
    else if s == "textarea" then Some(Textarea)
    else if s == "phone" then Some(Phone)
    else None
  }

  lemma FieldTypeRoundTrip(t: FieldType)
    ensures ParseFieldType(FieldTypeName(t)) == Some(t)
  {
  }

  function CategoryName(c: Category): string
  {
    match c
    case Business => "business"
    case Personal => "personal"
    case Event => "event"
    case Product => "product"
  }

  /** Reads a template category from its stored name; exactly four names are accepted. */
  function ParseCategory(s: string): (r: Option<Category>)
    ensures r.Some? <==> s == "business" || s == "personal" || s == "event" || s == "product"
    ensures r.Some? ==> CategoryName(r.value) == s
  {
    if s == "business" then Some(Business)
    else if s == "personal" then Some(Personal)
    else if s == "event" then Some(Event)
    else if s == "product" then Some(Product)
    else None
  }

  lemma CategoryRoundTrip(c: Category)
    ensures ParseCategory(CategoryName(c)) == Some(c)
  {
  }

  // ---------------------------------------------------------------------
  // Partial<LandingPage> and the object spread `{ ...page, ...patch }`.

  /** A partial page: `None` is a property the patch does not carry. */
  datatype PagePatch = PagePatch(
    id: Option<string>,
    userId: Option<string>,
    title: Option<string>,
    templateId: Option<string>,
    content: Option<PageContent>,
    settings: Option<PageSettings>,
    isPublished: Option<bool>,
    slug: Option<string>,
    createdAt: Option<Timestamp>,
    updatedAt: Option<Timestamp>)

  const EmptyPatch := PagePatch(None, None, None, None, None, None, None, None, None, None)

  function Override<T>(old_: T, patched: Option<T>): T
  {
    if patched.Some? then patched.value else old_
  }

  /** After a spread, a property holds the patch's value when the patch
      carries it and its earlier value otherwise. */
  predicate Spread<T(==)>(before: T, patched: Option<T>, after: T)
  {
    (patched.Some? ==> after == patched.value) && (patched.None? ==> after == before)
  }

  /** `{ ...page, ...patch }`: every property the patch carries wins. */
  function ApplyPatch(page: LandingPage, patch: PagePatch): (r: LandingPage)
    ensures Spread(page.id, patch.id, r.id) && Spread(page.userId, patch.userId, r.userId)
    ensures Spread(page.title, patch.title, r.title) && Spread(page.templateId, patch.templateId, r.templateId)
    ensures Spread(page.content, patch.content, r.content) && Spread(page.settings, patch.settings, r.settings)
    ensures Spread(page.isPublished, patch.isPublished, r.isPublished) && Spread(page.slug, patch.slug, r.slug)
    ensures Spread(page.createdAt, patch.createdAt, r.createdAt) && Spread(page.updatedAt, patch.updatedAt, r.updatedAt)
  {
    LandingPage(
      Override(page.id, patch.id),
      Override(page.userId, patch.userId),
      Override(page.title, patch.title),
      Override(page.templateId, patch.templateId),
      Override(page.content, patch.content),
      Override(page.settings, patch.settings),
      Override(page.isPublished, patch.isPublished),
      Override(page.slug, patch.slug),
      Override(page.createdAt, patch.createdAt),
      Override(page.updatedAt, patch.updatedAt))
  }

  /** Spreading an empty patch gives the page back, and spreading the same
      patch twice is the same as spreading it once. */
  lemma ApplyPatchLaws(page: LandingPage, patch: PagePatch)
    ensures ApplyPatch(page, EmptyPatch) == page
    ensures ApplyPatch(ApplyPatch(page, patch), patch) == ApplyPatch(page, patch)
  {
  }

  // ---------------------------------------------------------------------
  // `action.error.message || '<fallback>'`, shared by every rejected case.

  /** The message of a rejected operation, or the fallback when the message is
      missing or empty (an empty string is falsy in the source). */
  function ErrorText(message: Option<string>, fallback: string): (r: string)
    ensures message.Some? && message.value != "" ==> r == message.value
    ensures message.None? || message.value == "" ==> r == fallback
    ensures fallback != "" ==> r != ""
  {
    if message.Some? && message.value != "" then message.value else fallback
  }
}
