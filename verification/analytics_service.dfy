/** The analytics gateway. Every tracking call builds one record and hands
    it to the analytics library; the functions here return that record (the
    library call itself is not modelled). */
module Analytics {
  import opened Wrappers
  import Text

  /** The value `.env.local` ships with until a real id is filled in. */
  const PlaceholderId := "your_ga_measurement_id_here"

  /** A custom event: `{ category, action, label, value }`. */
  datatype Event = Event(category: string, action: string, labelText: Option<string>, value: Option<real>)

  /** A page-view hit: `{ hitType: 'pageview', page, title }`. */
  datatype PageView = PageView(page: string, title: string)

  /** Whether `initGA` initializes the library for the configured
      measurement id (undefined when the variable is not set); otherwise it
      only warns. */
  function InitializesAnalytics(measurementId: Option<string>): (init: bool)
    ensures init ==> measurementId.Some? && measurementId.value != ""
    ensures measurementId == Some(PlaceholderId) ==> !init
    ensures measurementId.Some? && measurementId.value !in {"", PlaceholderId} ==> init
  {
    match measurementId
    case None => false
    case Some(id) => id != "" && id != PlaceholderId
  }

  /** `trackPageView(path, title?)`: the supplied title when it is present
      and non-empty, the document's title otherwise. */
  function TrackPageView(path: string, title: Option<string>, documentTitle: string): (hit: PageView)
    ensures hit.page == path
    ensures title.Some? && title.value != "" ==> hit.title == title.value
    ensures title.None? || title.value == "" ==> hit.title == documentTitle
  {
    PageView(path, Text.OrElse(title, documentTitle))
  }

  /** `trackEvent(category, action, label?, value?)`: the record carries its
      arguments unchanged. */
  function TrackEvent(category: string, action: string, labelText: Option<string>, value: Option<real>): (e: Event)
    ensures e.category == category && e.action == action
    ensures e.labelText == labelText && e.value == value
  {
    Event(category, action, labelText, value)
  }

  const LocationSeparator := " - "

  /** The label of a button click: the button's name, followed by
      " - " and the location when a non-empty location is given. */
  function ButtonClickLabel(buttonName: string, location: Option<string>): (text: string)
    ensures |text| >= |buttonName| && text[..|buttonName|] == buttonName
    ensures location.None? || location.value == "" ==> text == buttonName
    ensures location.Some? && location.value != "" ==>
              text[|buttonName|..] == LocationSeparator + location.value
  {
    match location
    case Some(where) => if where == "" then buttonName else buttonName + LocationSeparator + where
    case None => buttonName
  }

  /** For a given button, the label tells the location apart: two clicks
      of the same button get the same label exactly when both have no
      (or an empty) location, or both have the same one. */
  lemma ButtonClickLabelInjective(buttonName: string, l1: Option<string>, l2: Option<string>)
    ensures ButtonClickLabel(buttonName, l1) == ButtonClickLabel(buttonName, l2) <==>
              (Present(l1) == Present(l2) && (Present(l1) ==> l1.value == l2.value))
  {
    var a, b := ButtonClickLabel(buttonName, l1), ButtonClickLabel(buttonName, l2);
    var n := |buttonName|;
    if a == b && Present(l1) && Present(l2) {
      assert a[n..] == b[n..];
      assert (LocationSeparator + l1.value)[3..] == l1.value;
      assert (LocationSeparator + l2.value)[3..] == l2.value;
    }
    if Present(l1) && Present(l2) && l1.value == l2.value {
      assert a == b;
    }
  }

  predicate Present(location: Option<string>) {
    location.Some? && location.value != ""
  }

  /** `trackButtonClick(buttonName, location?)`. */
  function TrackButtonClick(buttonName: string, location: Option<string>): (e: Event)
    ensures e.category == "Button" && e.action == "Click" && e.value.None?
    ensures e.labelText == Some(ButtonClickLabel(buttonName, location))
  {
    TrackEvent("Button", "Click", Some(ButtonClickLabel(buttonName, location)), None)
  }

  /** `trackFormSubmission(formName, success)`. */
  function TrackFormSubmission(formName: string, success: bool): (e: Event)
    ensures e.category == "Form" && e.labelText == Some(formName) && e.value.None?
    ensures e.action == "Submit Success" <==> success
    ensures e.action == "Submit Error" <==> !success
  {
    TrackEvent("Form", if success then "Submit Success" else "Submit Error", Some(formName), None)
  }

  /** `trackModalOpen(modalName)`. */
  function TrackModalOpen(modalName: string): (e: Event)
    ensures e == Event("Modal", "Open", Some(modalName), None)
  {
    TrackEvent("Modal", "Open", Some(modalName), None)
  }

  /** `trackModalClose(modalName)`. */
  function TrackModalClose(modalName: string): (e: Event)
    ensures e == Event("Modal", "Close", Some(modalName), None)
  {
    TrackEvent("Modal", "Close", Some(modalName), None)
  }

  /** `trackRegistration(success, referralSource?)`: the label is the
      referral source as given, absent when it is. */
  function TrackRegistration(success: bool, referralSource: Option<string>): (e: Event)
    ensures e.category == "Registration" && e.labelText == referralSource && e.value.None?
    ensures e.action == "Success" <==> success
    ensures e.action == "Failed" <==> !success
  {
    TrackEvent("Registration", if success then "Success" else "Failed", referralSource, None)
  }

  /** `trackNavigation(destination)`. */
  function TrackNavigation(destination: string): (e: Event)
    ensures e == Event("Navigation", "Click", Some(destination), None)
  {
    TrackEvent("Navigation", "Click", Some(destination), None)
  }

  /** The six wrappers emit records that name their source: the category
      says which wrapper sent it, and for the two with a boolean argument
      the action gives the outcome back. */
  lemma WrapperEventsAreDistinguishable(
    button: string, location: Option<string>, form: string, formSuccess: bool,
    modal: string, registered: bool, referral: Option<string>, destination: string)
    ensures var events := [TrackButtonClick(button, location), TrackFormSubmission(form, formSuccess),
                           TrackModalOpen(modal), TrackModalClose(modal),
                           TrackRegistration(registered, referral), TrackNavigation(destination)];
            forall i, j :: 0 <= i < j < |events| ==> events[i] != events[j]
    ensures TrackFormSubmission(form, formSuccess) != TrackFormSubmission(form, !formSuccess)
    ensures TrackRegistration(registered, referral) != TrackRegistration(!registered, referral)
  {
  }
}
