# GlitchHunt landing page: registration, persistence, shell and analytics model

This Dafny project models the stateful logic behind the GlitchHunt marketing
landing page. That logic has five parts:

- **Registration modal** (`registration_modal.dfy`, module `Registration`): the
  form's four fields (name, email, date of birth, referral source) and its
  `isSubmitting`, `isSuccess` and `error` state. The class models:
  - the effect that reseeds the email and resets the flags when the modal
    opens;
  - the submit handler, split at its `await` into `BeginSubmit` and
    `FinishSubmit`;
  - the browser's `required` and disabled-button checks;
  - what the modal renders.
- **Persistence gateway** (`supabase_service.dfy`, module `Supabase`):
  - `saveRegistration` lower-cases and trims the email, sends one insert into
    `early_registrations`, and sorts the store's answer into success,
    duplicate (Postgres code `23505`), other error, or exception;
  - after a successful insert it calls `sendWelcomeEmail`, which cannot turn
    success into failure;
  - the store client is a `Client?`: `null` stands for the client that is not
    created when the URL or key is missing. A `Client` is an abstract external:
    its insert and edge-function answers are given, and every call it receives
    is recorded.
- **Page shell** (`app.dfy`, module `AppShell`): the current page, the email
  draft, the modal's open flag, the displayed copy and the sidebar flag. The
  shell owns the modal and the copywriter widget. Its parts are:
  - `renderContent`'s page switch;
  - the home page's non-empty-draft guard on "Start Hunting";
  - the navigation bar's "Register" button;
  - the hand-off of the draft to the modal as its prefilled email.
- **AI copywriter widget** (`ai_copy_generator.dfy`, module `CopyGenerator`):
  - the `loading` flag around one call to the copy service;
  - the empty-niche guard and the `finally` reset;
  - `onUpdate`, called only when the call returns.

  The copy service is an abstract external that returns a suggestion or
  throws.
- **Analytics gateway** (`analytics_service.dfy`, module `Analytics`): the
  `initGA` guard, the page-view title choice, `trackEvent`, and the six
  wrappers. Each one returns the record it would hand to the analytics
  library.

`text.dfy` (module `Text`) gives the JavaScript string operations these parts
use: `toLowerCase` over ASCII, `trim` with ECMA-262's white-space set, and
`s || fallback` on an optional string. `wrappers.dfy` holds `Option`.

Two points of behaviour, as the code has them:

- A failed insert that is not a duplicate shows the store's own message when
  it has one (services/supabaseService.ts:56). It is not collapsed to one
  generic message.
- The code has no timer-driven view rotator: components/VariantRenderer.tsx
  renders one fixed layout.

## Model

| member | source | states |
|---|---|---|
| Text.ToLower | services/supabaseService.ts:37 | lower-casing keeps the length and maps each character on its own, ASCII capitals to small letters |
| Text.ToLowerProperties | services/supabaseService.ts:37 | the result has no capital letter, lower-casing is the identity on such a string, and it is idempotent |
| Text.Trim | services/supabaseService.ts:37 | the trimmed string neither starts nor ends with white space and is no longer than the input |
| Text.TrimSplit | services/supabaseService.ts:37 | every string is its trimmed core with white space before and after it |
| Text.TrimUnique | services/supabaseService.ts:37 | conversely, a core without white space at either end, padded with white space, trims to exactly that core |
| Text.TrimIdempotent | services/supabaseService.ts:37 | trimming twice removes nothing more |
| Text.OrElse | components/RegistrationModal.tsx:58 | `s \|\| fallback`: a present, non-empty `s` wins, otherwise the fallback; non-empty whenever the fallback is |
| Supabase.NormalizeEmail | services/supabaseService.ts:37 | the stored email has no capital letter, no surrounding white space, and is no longer than the input |
| Supabase.NormalizeEmailSplit | services/supabaseService.ts:37 | the stored email is the lower-cased input with only white space removed around it |
| Supabase.NormalizeEmailIdempotent | services/supabaseService.ts:37 | normalizing a stored email changes nothing |
| Supabase.NormalizeEmailIgnoresCase | services/supabaseService.ts:37 | addresses differing only in ASCII case are stored identically |
| Supabase.NormalizeEmailIgnoresPadding | services/supabaseService.ts:37 | addresses differing only in surrounding white space are stored identically |
| Supabase.RowFor | services/supabaseService.ts:32-41 | the inserted row keeps name, date of birth and referral source and holds the normalized email |
| Supabase.InsertResponse | services/supabaseService.ts:43-76 | success exactly when the insert reported no error; every failure has a non-empty message; duplicate flagged exactly for code 23505, with its fixed message; other errors give the store's message or "Failed to save registration."; an exception gives the fixed unexpected-error message; error and duplicate flag appear only on failure |
| Supabase.SendWelcomeEmail | services/supabaseService.ts:80-100 | with no client it returns without error and sends nothing; otherwise it sends one `send-welcome-email` invocation with the name and email, and throws exactly when the function reports an error or throws |
| Supabase.SaveRegistration | services/supabaseService.ts:28-77 | never throws; a null client gives the unexpected-error response; otherwise exactly one insert of the normalized row into `early_registrations`, a welcome email with the address as typed only when the insert reported no error, and a response decided by the insert alone |
| Analytics.InitializesAnalytics | services/analyticsService.ts:7 | initializes only for a present, non-empty id, never for the placeholder id, and always for any other id |
| Analytics.TrackPageView | services/analyticsService.ts:20-26 | the hit's page is the path; its title is the given title when non-empty, else the document's title |
| Analytics.TrackEvent | services/analyticsService.ts:29-36 | the record carries category, action, label and numeric value unchanged |
| Analytics.ButtonClickLabel | services/analyticsService.ts:40 | the label starts with the button name; it is the name alone without a non-empty location, else the name, " - " and the location |
| Analytics.ButtonClickLabelInjective | services/analyticsService.ts:40 | for one button, two labels are equal exactly when both lack a location or both have the same one |
| Analytics.TrackButtonClick | services/analyticsService.ts:39-41 | category "Button", action "Click", the button label, no value |
| Analytics.TrackFormSubmission | services/analyticsService.ts:44-46 | category "Form", label the form name, no value; action "Submit Success" exactly on success and "Submit Error" exactly on failure |
| Analytics.TrackModalOpen | services/analyticsService.ts:49-51 | ("Modal", "Open", name) with no value |
| Analytics.TrackModalClose | services/analyticsService.ts:54-56 | ("Modal", "Close", name) with no value |
| Analytics.TrackRegistration | services/analyticsService.ts:59-61 | category "Registration", the referral source as label, no value; action "Success" exactly on success and "Failed" exactly on failure |
| Analytics.TrackNavigation | services/analyticsService.ts:64-66 | ("Navigation", "Click", destination) with no value |
| Analytics.WrapperEventsAreDistinguishable | services/analyticsService.ts:39-66 | the six wrappers never emit the same record, and the form and registration records give their outcome back |
| Registration.ErrorMessage | components/RegistrationModal.tsx:58 | the shown message is never empty: the response's error when non-empty, else "Registration failed. Please try again." |
| Registration.GatewayMessageShown | components/RegistrationModal.tsx:58 | for every failure `saveRegistration` can report, the modal shows the gateway's own message (the duplicate message for code 23505), never the fallback |
| Registration.RegistrationModal.constructor | components/RegistrationModal.tsx:12-20 | empty fields except the prefilled email; all flags clear |
| Registration.RegistrationModal.Open | components/RegistrationModal.tsx:23-30 | email reseeded from the prefilled value; isSuccess, isSubmitting and error cleared; name, date of birth and referral source kept; the invariant (isSuccess implies no error, etc.) holds |
| Registration.RegistrationModal.Edit | components/RegistrationModal.tsx:128-201 | changes only the edited field; the email does not change while a prefilled email makes it read-only; flags untouched |
| Registration.RegistrationModal.CanSubmit | components/RegistrationModal.tsx:129-213 | the browser lets the form submit exactly when the form (not the success panel) is shown with its submit button enabled and all four required controls, including the referral select past its empty placeholder, are non-empty |
| Registration.RegistrationModal.Request | components/RegistrationModal.tsx:37-42 | the request carries the four fields as name, email, date_of_birth, referral_source |
| Registration.RegistrationModal.BeginSubmit | components/RegistrationModal.tsx:33-42 | isSubmitting set and error cleared before the request goes out; fields unchanged; the request is built from the fields |
| Registration.RegistrationModal.FinishSubmit | components/RegistrationModal.tsx:46-59 | isSubmitting cleared on both paths; success sets isSuccess and empties all four fields; failure sets the non-empty message and keeps fields and isSuccess |
| Registration.RegistrationModal.HandleFormSubmit | components/RegistrationModal.tsx:32-60 | one insert of the form's row; success view exactly when the insert succeeded; on failure the gateway's message with the fields kept; the welcome-email invocation log grows by one call with the name and email as typed exactly when the insert succeeded, and the client's scripted replies are unchanged |
| Registration.RegistrationModal.SubmitForm | components/RegistrationModal.tsx:111-213 | the browser submits exactly when the form is shown, the button is enabled and all four required fields are non-empty (referral then one of the five options); a submission sends exactly one insert of the form's normalized row; the welcome-email invocation log grows by one call with the name and email as typed exactly when the insert succeeded, and the client's scripted replies are unchanged; otherwise no request and no state change |
| Registration.RegistrationModal.Render | components/RegistrationModal.tsx:62-213 | nothing when closed; the success panel exactly when open and successful; in the form, the submit button is disabled exactly while submitting, the email is read-only exactly when a prefilled email is given, and the banner appears exactly for a non-empty error and shows that error's text |
| CopyGenerator.AICopyGenerator.constructor | components/AICopyGenerator.tsx:11-12 | empty niche, not loading, the given style |
| CopyGenerator.AICopyGenerator.GenerateEnabled | components/AICopyGenerator.tsx:46 | the Generate button is disabled while a call is in flight, and otherwise enabled exactly when the niche is non-empty |
| CopyGenerator.AICopyGenerator.SetNiche | components/AICopyGenerator.tsx:40 | the niche becomes the typed value |
| CopyGenerator.AICopyGenerator.BeginGenerate | components/AICopyGenerator.tsx:14-18 | an empty niche makes no call and leaves loading alone; otherwise loading is set and the call gets exactly (niche, currentStyle) |
| CopyGenerator.AICopyGenerator.FinishGenerate | components/AICopyGenerator.tsx:18-24 | loading cleared on both paths; `onUpdate` gets the unmodified suggestion exactly when the call returned |
| CopyGenerator.AICopyGenerator.HandleGenerate | components/AICopyGenerator.tsx:14-25 | at most one call; `onUpdate` at most once and only after a normal return; loading false after any call; an enabled button (not loading, non-empty niche) always makes the call |
| AppShell.PageFor | App.tsx:23-40 | "product", "solutions", "privacy" and "terms" give their pages; every other string gives the home variant |
| AppShell.PageNamesRoundTrip | components/Layout.tsx:15-46 | each page is reached by the name its link navigates to, and no two pages share a name |
| AppShell.App.constructor | App.tsx:17-21 | default copy, sidebar closed, page "home", empty draft, modal closed; the modal mounted with an empty prefilled email has an empty form and clear flags; the copywriter has an empty niche and is not loading |
| AppShell.App.ModalView | App.tsx:46-50 | the modal is hidden exactly when closed and receives the draft as its prefilled email (read-only exactly when the draft is non-empty) |
| AppShell.App.SetModalOpen | App.tsx:36 | sets the modal open; if it was closed, the modal's open effect runs with the draft; if it was open, the modal is untouched |
| AppShell.App.StartHunting | components/VariantRenderer.tsx:41-49 | opens the modal only when the draft is non-empty; an empty draft leaves everything unchanged |
| AppShell.App.Register | App.tsx:92 | opens the modal (reseeding it when it was closed); no other shell state changes |
| AppShell.App.CloseModal | App.tsx:48 | closes the modal; nothing else changes |
| AppShell.App.SetEmail | App.tsx:35 | the draft becomes the typed value; when the open modal's prefilled email changes, its effect reseeds the email and resets the flags, keeping name, date of birth and referral source |
| AppShell.App.EditModalField | App.tsx:49 | the modal edits its form with the draft as its prefilled email, so a prefilled email cannot be overwritten |
| AppShell.App.SubmitRegistration | App.tsx:46-50 | the modal submits only when its form allows it; success empties the form, failure keeps all four fields and shows the gateway message; a submission sends exactly one insert of the form's normalized row; the welcome-email invocation log grows by one call with the name and email as typed exactly when the insert succeeded, and the client's scripted replies are unchanged; no submission leaves the client untouched |
| AppShell.App.Navigate | App.tsx:91 | the page name is stored unchanged |
| AppShell.App.OpenSidebar | App.tsx:55 | the sidebar opens; nothing else changes |
| AppShell.App.CloseSidebar | App.tsx:71 | the sidebar closes; nothing else changes |
| AppShell.App.SetNiche | App.tsx:74-77 | the copywriter's niche becomes the typed value |
| AppShell.App.GenerateCopy | App.tsx:74-77 | the copy service is called with the niche and style "clean-saas" unless the niche is empty; a returned suggestion replaces the copy wholesale; otherwise the copy is kept; with an empty niche the loading flag is left as it was |

## Left out

- Text.ToLower: lower-cases ASCII letters only. JavaScript's full Unicode case mapping (including mappings that change length) is not modelled.
- Registration.RegistrationModal.FinishSubmit: requires the submission it finishes to be in flight. The model does not cover closing and reopening the modal while the insert is awaited, which resets `isSubmitting` before the reply lands. Async interleaving and unmounting are not modelled.
- Native browser validation of the email format (`type="email"`) and the date input are not modelled; "required" means non-empty.
- The copy service (services/geminiService.ts: its prompt, the model call, `JSON.parse` and its fallback suggestion) is an abstract external that returns a suggestion or throws. This includes the throw from client construction, which happens outside its try block.
- The store client's internals, the welcome-mail edge function and the network are a `Client` with given answers. The same answer is returned for every call.
- Logging (`console.*`), the analytics library call (`ReactGA.initialize`, `send`, `event`), its debug option and `document.title` (a parameter) are not modelled. The analytics functions return the record they would send.
- The DOM `focus()` on an empty draft, the mock data and all markup in components/VariantRenderer.tsx, components/ContentPages.tsx and components/Layout.tsx are static rendering. Only the navigation names and the draft guard are modelled.
- Reading the environment variables that select a null client is not modelled; the caller chooses `null` or a `Client`.
