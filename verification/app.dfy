/** The page shell: which page is shown, the email draft typed on the home
    page, the registration modal's open flag, the displayed copy and the
    settings sidebar. It owns the registration modal and the AI copywriter
    widget it renders. */
module AppShell {
  import opened Wrappers
  import Registration
  import CopyGenerator
  import Supabase

  const DefaultCopy := CopyGenerator.CopySuggestion(
    "Where Bugs Go To Die.",
    "The front page of the broken internet. Join thousands of users reporting and fixing glitches in your favorite apps.",
    "Start Hunting")

  /** The style the shell passes to the copywriter. */
  const CleanSaas := "clean-saas"

  datatype Page = Home | Product | Solutions | PrivacyPolicy | Terms

  /** `renderContent`'s switch: the four named pages, and the home variant
      for "home" and for any other string. */
  function PageFor(currentPage: string): (p: Page)
    ensures p == Product <==> currentPage == "product"
    ensures p == Solutions <==> currentPage == "solutions"
    ensures p == PrivacyPolicy <==> currentPage == "privacy"
    ensures p == Terms <==> currentPage == "terms"
    ensures p == Home <==> currentPage !in {"product", "solutions", "privacy", "terms"}
  {
    match currentPage
    case "product" => Product
    case "solutions" => Solutions
    case "privacy" => PrivacyPolicy
    case "terms" => Terms
    case _ => Home
  }

  /** The name the navigation links pass to `onNavigate` for each page. */
  function PageName(p: Page): string {
    match p
    case Home => "home"
    case Product => "product"
    case Solutions => "solutions"
    case PrivacyPolicy => "privacy"
    case Terms => "terms"
  }

  /** Every page is reached by the name its link navigates to, and no two
      pages share a name. */
  lemma PageNamesRoundTrip()
    ensures forall p: Page :: PageFor(PageName(p)) == p
    ensures forall p: Page, q: Page :: PageName(p) == PageName(q) ==> p == q
  {
    forall p: Page ensures PageFor(PageName(p)) == p {
      match p
      case Home => assert PageFor("home") == Home;
      case _ =>
    }
  }

  class App {
    var currentCopy: CopyGenerator.CopySuggestion
    var isSidebarOpen: bool
    var currentPage: string
    var email: string
    var isModalOpen: bool
    const modal: Registration.RegistrationModal
    const generator: CopyGenerator.AICopyGenerator

    /** The modal's invariant holds; the copywriter is always given the
        clean-saas style; and while the open modal shows its form under a
        non-empty prefilled email (read-only), that email is the draft. */
    ghost predicate Valid()
      reads this, modal, generator
    {
      && modal.Valid()
      && generator.currentStyle == CleanSaas
      && (isModalOpen && email != "" && !modal.isSuccess ==> modal.email == email)
    }

    /** The state hooks' initial values. */
    constructor ()
      ensures Valid()
      ensures currentCopy == DefaultCopy && !isSidebarOpen && currentPage == "home"
      ensures email == "" && !isModalOpen
      ensures fresh(modal) && fresh(generator)
      ensures modal.name == "" && modal.email == "" && modal.dateOfBirth == "" && modal.referralSource == ""
      ensures !modal.isSubmitting && !modal.isSuccess && modal.error.None?
      ensures generator.niche == "" && !generator.loading
    {
      currentCopy := DefaultCopy;
      isSidebarOpen := false;
      currentPage := "home";
      email := "";
      isModalOpen := false;
      modal := new Registration.RegistrationModal("");
      generator := new CopyGenerator.AICopyGenerator(CleanSaas);
    }

    /** What the shell renders in its main area. */
    function Content(): Page
      reads this
    {
      PageFor(currentPage)
    }

    /** What the modal renders: it is always given the current draft as its
        prefilled email. */
    function ModalView(): (v: Registration.View)
      reads this, modal
      ensures v == Registration.Hidden <==> !isModalOpen
      ensures v.Form? ==> (v.emailReadOnly <==> email != "")
    {
      modal.Render(isModalOpen, email)
    }

    /** Sets the modal's open flag; when that opens it, the modal's open
        effect runs with the current draft. */
    method SetModalOpen()
      requires Valid()
      modifies this`isModalOpen, modal
      ensures Valid() && isModalOpen
      ensures !old(isModalOpen) ==>
                && modal.email == email && !modal.isSuccess && !modal.isSubmitting && modal.error.None?
                && modal.name == old(modal.name) && modal.dateOfBirth == old(modal.dateOfBirth)
                && modal.referralSource == old(modal.referralSource)
      ensures old(isModalOpen) ==> unchanged(modal)
    {
      if !isModalOpen {
        isModalOpen := true;
        modal.Open(email);
      }
    }

    /** The home page's "Start Hunting" button (`onStartHunting`, guarded by
        the home variant's non-empty-draft check). */
    method StartHunting()
      requires Valid() && Content() == Home
      modifies this`isModalOpen, modal
      ensures Valid()
      ensures isModalOpen == (old(isModalOpen) || email != "")
      ensures email != "" && !old(isModalOpen) ==>
                && modal.email == email && !modal.isSuccess && !modal.isSubmitting && modal.error.None?
                && modal.name == old(modal.name) && modal.dateOfBirth == old(modal.dateOfBirth)
                && modal.referralSource == old(modal.referralSource)
      ensures email == "" || old(isModalOpen) ==> unchanged(modal)
    {
      if email != "" {
        SetModalOpen();
      }
    }

    /** The navigation bar's "Register" button (`onRegister`). */
    method Register()
      requires Valid()
      modifies this`isModalOpen, modal
      ensures Valid() && isModalOpen
      ensures !old(isModalOpen) ==>
                && modal.email == email && !modal.isSuccess && !modal.isSubmitting && modal.error.None?
                && modal.name == old(modal.name) && modal.dateOfBirth == old(modal.dateOfBirth)
                && modal.referralSource == old(modal.referralSource)
      ensures old(isModalOpen) ==> unchanged(modal)
    {
      SetModalOpen();
    }

    /** The modal's `onClose`. */
    method CloseModal()
      requires Valid()
      modifies this`isModalOpen
      ensures Valid() && !isModalOpen
    {
      isModalOpen := false;
    }

    /** The home page's email input (`setEmail`). When the modal is open
        and the draft changes, the modal's effect reseeds its email. */
    method SetEmail(value: string)
      requires Valid() && Content() == Home
      modifies this`email, modal
      ensures Valid() && email == value
      ensures isModalOpen && value != old(email) ==>
                && modal.email == value && !modal.isSuccess && !modal.isSubmitting && modal.error.None?
                && modal.name == old(modal.name) && modal.dateOfBirth == old(modal.dateOfBirth)
                && modal.referralSource == old(modal.referralSource)
      ensures !isModalOpen || value == old(email) ==> unchanged(modal)
    {
      var changed := value != email;
      email := value;
      if isModalOpen && changed {
        modal.Open(email);
      }
    }

    /** A field of the open modal's form, as typed by the user. */
    method EditModalField(field: Registration.Field, value: string)
      requires Valid() && isModalOpen && !modal.isSuccess
      requires field == Registration.ReferralSource ==> value == "" || value in Registration.ReferralOptions
      modifies modal
      ensures Valid()
      ensures modal.isSubmitting == old(modal.isSubmitting) && !modal.isSuccess
      ensures modal.error == old(modal.error)
      ensures modal.name == (if field == Registration.Name then value else old(modal.name))
      ensures modal.email == (if field == Registration.Email && email == "" then value else old(modal.email))
      ensures modal.dateOfBirth == (if field == Registration.DateOfBirth then value else old(modal.dateOfBirth))
      ensures modal.referralSource ==
                (if field == Registration.ReferralSource then value else old(modal.referralSource))
    {
      modal.Edit(field, value, email);
    }

    /** The open modal's form submitted against the store. */
    method SubmitRegistration(client: Supabase.Client?) returns (submitted: bool)
      requires Valid() && isModalOpen
      modifies modal, client
      ensures Valid()
      ensures submitted == old(modal.CanSubmit())
      ensures !submitted ==> unchanged(modal) && (client != null ==> unchanged(client))
      ensures submitted ==>
                && !modal.isSubmitting
                && (modal.isSuccess <==> old(Supabase.SaveResponse(client)).success)
      ensures submitted && modal.isSuccess ==>
                modal.name == "" && modal.email == "" && modal.dateOfBirth == "" && modal.referralSource == ""
      ensures submitted && !modal.isSuccess ==>
                && modal.error == old(Supabase.SaveResponse(client)).error
                && modal.name == old(modal.name) && modal.email == old(modal.email)
                && modal.dateOfBirth == old(modal.dateOfBirth) && modal.referralSource == old(modal.referralSource)
      ensures submitted && client != null ==>
                && client.inserts ==
                     old(client.inserts) + [Supabase.InsertCall(Supabase.Table, [Supabase.RowFor(old(modal.Request()))])]
                && client.invocations == old(client.invocations) +
                     (if old(client.insertReply).Inserted?
                      then [Supabase.InvokeCall(Supabase.WelcomeFunction, old(modal.Request()).name, old(modal.Request()).email)]
                      else [])
                && client.insertReply == old(client.insertReply)
                && client.invokeReply == old(client.invokeReply)
    {
      submitted := modal.SubmitForm(client);
    }

    /** `onNavigate`: the page name is stored as given. */
    method Navigate(page: string)
      requires Valid()
      modifies this`currentPage
      ensures Valid() && currentPage == page
    {
      currentPage := page;
    }

    method OpenSidebar()
      requires Valid()
      modifies this`isSidebarOpen
      ensures Valid() && isSidebarOpen
    {
      isSidebarOpen := true;
    }

    method CloseSidebar()
      requires Valid()
      modifies this`isSidebarOpen
      ensures Valid() && !isSidebarOpen
    {
      isSidebarOpen := false;
    }

    /** The copywriter's niche input. */
    method SetNiche(value: string)
      requires Valid()
      modifies generator`niche
      ensures Valid() && generator.niche == value
    {
      generator.SetNiche(value);
    }

    /** The copywriter's Generate handler, with `onUpdate` replacing the
        displayed copy wholesale. The call, when made, always carries the
        clean-saas style. */
    method GenerateCopy(reply: CopyGenerator.GenerateReply) returns (request: Option<CopyGenerator.GenerateRequest>)
      requires Valid()
      modifies this`currentCopy, generator`loading
      ensures Valid()
      ensures request == (if generator.niche == "" then None
                          else Some(CopyGenerator.GenerateRequest(generator.niche, CleanSaas)))
      ensures currentCopy == (if request.Some? && reply.Returned? then reply.copy else old(currentCopy))
      ensures request.Some? ==> !generator.loading
      ensures request.None? ==> generator.loading == old(generator.loading)
    {
      var update;
      request, update := generator.HandleGenerate(reply);
      if update.Some? {
        currentCopy := update.value;
      }
    }
  }

  /** The end-to-end path: a draft typed on the home page, the modal opened
      with it, the rest of the form filled in, a successful insert; the
      modal then shows its success panel, and a later reopening shows the
      form again with the draft reseeded and the other fields empty. */
  method RegistrationScenario()
  {
    var app := new App();
    assert app.ModalView() == Registration.Hidden && app.modal.name == "" && app.modal.referralSource == "";
    var client := new Supabase.Client(Supabase.Inserted, Supabase.Invoked);
    app.SetEmail("a@b.com");
    app.StartHunting();
    assert app.isModalOpen && app.modal.email == "a@b.com";
    app.EditModalField(Registration.Name, "Jane");
    app.EditModalField(Registration.DateOfBirth, "1990-01-01");
    app.EditModalField(Registration.ReferralSource, "friend");
    assert app.modal.email == "a@b.com";
    var submitted := app.SubmitRegistration(client);
    assert submitted;
    assert app.ModalView() == Registration.SuccessPanel;
    app.CloseModal();
    app.Register();
    assert app.modal.email == "a@b.com" && app.modal.name == "";
    assert app.ModalView().Form? && app.ModalView().emailReadOnly;
  }
}
