/** Onboarding step 2: importing a Google Scholar profile. The import is a
    timer; here its firing is an explicit event, `ImportTimerFires`, that
    carries the URL captured when Import was clicked. */
module Step2Page {
  import opened Types
  import Onboarding

  const STEP3_ROUTE := "/onboarding/step3"

  datatype ImportStatus = Idle | Loading | Success

  /** How far the import has got. */
  function Rank(status: ImportStatus): nat
  {
    match status
    case Idle => 0
    case Loading => 1
    case Success => 2
  }

  class Step2Page {
    var url: string
    var status: ImportStatus
    /** The URL held by the import timer still to fire, if one is scheduled. */
    var pendingImport: Option<string>

    /** A scheduled import holds a non-empty URL and shows as loading. */
    ghost predicate Valid()
      reads this
    {
      pendingImport.Some? ==> pendingImport.value != "" && status == Loading
    }

    constructor ()
      ensures url == "" && status == Idle && pendingImport == None && Valid()
    {
      url, status, pendingImport := "", Idle, None;
    }

    /** Typing in the URL field; the field is never disabled. */
    method SetUrl(value: string)
      modifies this
      ensures url == value && status == old(status) && pendingImport == old(pendingImport)
      ensures old(Valid()) ==> Valid()
    {
      url := value;
    }

    /** The Import button is disabled while loading and after success. */
    predicate ImportEnabled()
      reads this
      ensures ImportEnabled() <==> status != Loading && status != Success
      ensures ImportEnabled() <==> Rank(status) == 0
    {
      status == Idle
    }

    /** The Finish button is enabled only after success. */
    predicate FinishEnabled()
      reads this
      ensures FinishEnabled() <==> Rank(status) == 2
      ensures FinishEnabled() ==> !ImportEnabled()
    {
      status == Success
    }

    /** `handleImport`: with an empty URL nothing happens; otherwise the page
        shows loading and the timer is scheduled with the current URL. */
    method HandleImport()
      modifies this
      ensures url == old(url)
      ensures old(url) == "" ==> status == old(status) && pendingImport == old(pendingImport)
      ensures old(url) != "" ==> status == Loading && pendingImport == Some(old(url))
      ensures old(Valid()) ==> Valid()
    {
      if url == "" {
        return;
      }
      status := Loading;
      pendingImport := Some(url);
    }

    /** A click on the Import button: the handler runs only when the button is enabled. */
    method ClickImport()
      modifies this
      ensures url == old(url)
      ensures old(ImportEnabled()) && old(url) != "" ==> status == Loading && pendingImport == Some(old(url))
      ensures !(old(ImportEnabled()) && old(url) != "") ==> status == old(status) && pendingImport == old(pendingImport)
      ensures Rank(old(status)) <= Rank(status)
      ensures old(Valid()) ==> Valid()
    {
      if ImportEnabled() {
        HandleImport();
      }
    }

    /** The import timer fires: success, and the captured URL is stored as linked. */
    method ImportTimerFires(store: Onboarding.OnboardingStore)
      requires pendingImport.Some? && Valid()
      modifies this, store
      ensures old(status) == Loading && old(pendingImport).value != ""
      ensures status == Success && pendingImport == None && url == old(url)
      ensures store.Fields() == old(store.Fields()).(scholarUrl := old(pendingImport).value, scholarLinked := true)
      ensures Rank(old(status)) <= Rank(status)
      ensures Valid()
    {
      var captured := pendingImport.value;
      status := Success;
      pendingImport := None;
      store.SetScholarData(captured, true);
    }

    /** `handleSkip` as written: records "not linked" and moves on to step 3,
        but leaves a scheduled import timer running. */
    method HandleSkip(store: Onboarding.OnboardingStore) returns (route: string)
      modifies store
      ensures store.Fields() == old(store.Fields()).(scholarUrl := "", scholarLinked := false)
      ensures route == STEP3_ROUTE
    {
      store.SetScholarData("", false);
      route := STEP3_ROUTE;
    }

    /** `handleSkip` as evidently intended: the same, and a scheduled import is cancelled. */
    method HandleSkipCancelling(store: Onboarding.OnboardingStore) returns (route: string)
      modifies this, store
      ensures store.Fields() == old(store.Fields()).(scholarUrl := "", scholarLinked := false)
      ensures pendingImport == None && status == old(status) && url == old(url)
      ensures route == STEP3_ROUTE
      ensures old(Valid()) ==> Valid()
    {
      pendingImport := None;
      store.SetScholarData("", false);
      route := STEP3_ROUTE;
    }

    /** `handleFinish`: on to step 3. */
    method HandleFinish() returns (route: string)
      ensures route == STEP3_ROUTE
    {
      route := STEP3_ROUTE;
    }

    /** A click on the Finish button: it navigates only after a successful import. */
    method ClickFinish() returns (route: Option<string>)
      ensures route.Some? <==> status == Success
      ensures route.Some? ==> route.value == STEP3_ROUTE
    {
      route := None;
      if FinishEnabled() {
        var r := HandleFinish();
        route := Some(r);
      }
    }
  }

  /** As written: Import, then Skip before the timer fires, and the profile
      ends up linked to the URL the user skipped. */
  method SkipDuringImportAsWritten(page: Step2Page, store: Onboarding.OnboardingStore, profileUrl: string)
    requires page.status == Idle && profileUrl != ""
    modifies page, store
    ensures store.scholarLinked && store.scholarUrl == profileUrl
  {
    page.SetUrl(profileUrl);
    page.ClickImport();
    var route := page.HandleSkip(store);
    page.ImportTimerFires(store);
  }

  /** As intended: after Import then the cancelling Skip, nothing is
      scheduled, so the profile stays unlinked. */
  method SkipDuringImportCancelling(page: Step2Page, store: Onboarding.OnboardingStore, profileUrl: string)
    requires page.status == Idle && profileUrl != ""
    modifies page, store
    ensures !store.scholarLinked && store.scholarUrl == ""
    ensures page.pendingImport == None
  {
    page.SetUrl(profileUrl);
    page.ClickImport();
    var route := page.HandleSkipCancelling(store);
  }
}
