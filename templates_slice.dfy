/** The template catalog and the `templates` domain of the application
    state (templatesSlice.ts). */
module TemplatesSlice {
  import opened Wrappers
  import opened Types

  const FetchTemplatesFailed := "Failed to fetch templates"

  function Feature(id: string, title: string, description: string, icon: string): FeatureSection
  {
    FeatureSection(id, title, description, Some(icon), None)
  }

  function Field(id: string, fieldType: FieldType, fieldLabel: string, placeholder: string, required: bool): FormField
  {
    FormField(id, fieldType, fieldLabel, placeholder, required)
  }

  function Settings(primaryColor: string, secondaryColor: string, fontFamily: string): PageSettings
  {
    PageSettings(primaryColor, secondaryColor, fontFamily, None, None, None, None)
  }

  const BusinessPro := Template(
    "business-pro",
    "Business Pro",
    "Professional business landing page with clean design",
    "https://via.placeholder.com/300x200?text=Business+Pro",
    Business,
    PageContent(
      HeroSection(
        "Grow Your Business Today",
        "Transform your ideas into profitable ventures with our proven strategies and expert guidance.",
        None, "#1e3a8a", "#ffffff", "Get Started", "#f59e0b"),
      Some([
        Feature("1", "Expert Consultation",
          "Get personalized advice from industry experts to accelerate your growth.", "\U{1F465}"),
        Feature("2", "Proven Strategies",
          "Implement battle-tested methods that have helped thousands of businesses succeed.", "\U{1F4C8}"),
        Feature("3", "24/7 Support",
          "Round-the-clock assistance to ensure you never miss an opportunity.", "\U{1F527}")
      ]),
      CTASection(
        "Ready to Scale Your Business?",
        "Join thousands of successful entrepreneurs who trust our platform.",
        "Start Free Trial", "#10b981", "#f3f4f6"),
      FooterSection("\U{00A9} 2024 Your Business. All rights reserved.", None, "#1f2937", "#ffffff"),
      Some(FormSection(
        "contact-form",
        "Get Your Free Consultation",
        [
          Field("name", Text, "Full Name", "Enter your full name", true),
          Field("email", Email, "Email Address", "Enter your email", true),
          Field("company", Text, "Company Name", "Enter your company name", false)
        ],
        "Get Free Consultation",
        "Thank you! We'll contact you within 24 hours."))),
    Settings("#1e3a8a", "#f59e0b", "Inter"))

  const StartupLaunch := Template(
    "startup-launch",
    "Startup Launch",
    "Perfect for launching new products and startups",
    "https://via.placeholder.com/300x200?text=Startup+Launch",
    Business,
    PageContent(
      HeroSection(
        "Launch Your Startup Successfully",
        "Turn your innovative ideas into reality with our comprehensive startup toolkit.",
        None, "#7c3aed", "#ffffff", "Start Building", "#ec4899"),
      Some([
        Feature("1", "Rapid MVP Development",
          "Build and validate your minimum viable product in weeks, not months.", "\U{1F680}"),
        Feature("2", "Investor Ready",
          "Prepare compelling pitch decks and financial models for fundraising.", "\U{1F4B0}"),
        Feature("3", "Market Validation",
          "Test your ideas with real customers before full-scale development.", "\U{2705}")
      ]),
      CTASection(
        "Ready to Disrupt the Market?",
        "Join our accelerator program and turn your vision into reality.",
        "Apply Now", "#7c3aed", "#fef3c7"),
      FooterSection("\U{00A9} 2024 Startup Accelerator. Empowering innovators worldwide.", None, "#374151", "#f9fafb"),
      Some(FormSection(
        "startup-form",
        "Join Our Accelerator Program",
        [
          Field("founder-name", Text, "Founder Name", "Your name", true),
          Field("email", Email, "Email", "founder@startup.com", true),
          Field("startup-idea", Textarea, "Startup Idea", "Briefly describe your startup idea...", true)
        ],
        "Apply to Accelerator",
        "Application submitted! We'll review and get back to you soon."))),
    Settings("#7c3aed", "#ec4899", "Poppins"))

  const PersonalBrand := Template(
    "personal-brand",
    "Personal Brand",
    "Showcase your personal brand and expertise",
    "https://via.placeholder.com/300x200?text=Personal+Brand",
    Personal,
    PageContent(
      HeroSection(
        "Build Your Personal Brand",
        "Establish yourself as an industry thought leader and grow your influence.",
        None, "#059669", "#ffffff", "Learn More", "#fbbf24"),
      Some([
        Feature("1", "Content Strategy",
          "Develop a consistent content plan that resonates with your audience.", "\U{1F4DD}"),
        Feature("2", "Social Media Growth",
          "Build a strong social media presence across all platforms.", "\U{1F4F1}"),
        Feature("3", "Thought Leadership",
          "Position yourself as an expert in your field through strategic content.", "\U{1F9E0}")
      ]),
      CTASection(
        "Ready to Become an Industry Leader?",
        "Start building your personal brand today with our proven framework.",
        "Get Started", "#059669", "#ecfdf5"),
      FooterSection("\U{00A9} 2024 Personal Brand Builder. Your success is our mission.", None, "#064e3b", "#ecfdf5"),
      Some(FormSection(
        "brand-form",
        "Start Your Brand Journey",
        [
          Field("name", Text, "Name", "Your full name", true),
          Field("email", Email, "Email", "your@email.com", true),
          Field("industry", Text, "Industry", "What industry are you in?", true)
        ],
        "Start Building",
        "Welcome! Check your email for your brand building guide."))),
    Settings("#059669", "#fbbf24", "Montserrat"))

  /** `defaultTemplates`, in catalog order. */
  const DefaultTemplates: seq<Template> := [BusinessPro, StartupLaunch, PersonalBrand]

  predicate DistinctTemplateIds(templates: seq<Template>)
  {
    forall i, j :: 0 <= i < j < |templates| ==> templates[i].id != templates[j].id
  }

  predicate DistinctFieldIds(fields: seq<FormField>)
  {
    forall i, j :: 0 <= i < j < |fields| ==> fields[i].id != fields[j].id
  }

  /** The catalog: three templates in a fixed order, with distinct ids. */
  lemma CatalogShape()
    ensures |DefaultTemplates| == 3
    ensures DefaultTemplates[0].id == "business-pro"
    ensures DefaultTemplates[1].id == "startup-launch"
    ensures DefaultTemplates[2].id == "personal-brand"
    ensures DistinctTemplateIds(DefaultTemplates)
  {
  }

  lemma BusinessProDefaults()
    ensures DefaultTemplates[0].category == Business
    ensures DefaultTemplates[0].defaultContent.hero.title == "Grow Your Business Today"
  {
  }

  /** Every template ships a form, and no form repeats a field id. */
  lemma FormFieldIdsDistinct()
    ensures forall t :: t in DefaultTemplates ==>
              t.defaultContent.form.Some? && DistinctFieldIds(t.defaultContent.form.value.fields)
  {
  }

  /** `fetchTemplates`: the catalog, unchanged. */
  function FetchTemplates(): (templates: seq<Template>)
    ensures templates == DefaultTemplates
  {
    DefaultTemplates
  }

  class Slice {
    var templates: seq<Template>
    var isLoading: bool
    var error: Option<string>

    function State(): TemplatesState
      reads this
    {
      TemplatesState(templates, isLoading, error)
    }

    /** `initialState`: no templates until they are fetched. */
    constructor ()
      ensures State() == TemplatesState([], false, None)
    {
      templates := [];
      isLoading := false;
      error := None;
    }

    method ClearError()
      modifies this
      ensures State() == old(State()).(error := None)
    {
      error := None;
    }

    method Pending()
      modifies this
      ensures State() == old(State()).(isLoading := true, error := None)
    {
      isLoading := true;
      error := None;
    }

    /** Replaces the templates with the payload; `error` is not touched. */
    method Fulfilled(payload: seq<Template>)
      modifies this
      ensures State() == old(State()).(isLoading := false, templates := payload)
    {
      isLoading := false;
      templates := payload;
    }

    /** Keeps the templates and records the failure. */
    method Rejected(message: Option<string>)
      modifies this
      ensures State() == old(State()).(isLoading := false, error := Some(ErrorText(message, FetchTemplatesFailed)))
    {
      isLoading := false;
      error := Some(ErrorText(message, FetchTemplatesFailed));
    }
  }

  /** The thunk: pending, then fulfilled with the catalog (the mock never fails). */
  method DispatchFetchTemplates(slice: Slice)
    modifies slice
    ensures slice.State() == TemplatesState(DefaultTemplates, false, None)
  {
    slice.Pending();
    var templates := FetchTemplates();
    slice.Fulfilled(templates);
  }
}
