/** The onboarding wizard's store: seven fields, one setter per field (two
    for the scholar link), and `reset` back to the initial values. */
module Onboarding {

  /** The store's seven fields as one value. */
  datatype OnboardingFields = OnboardingFields(
    email: string,
    password: string,
    role: string,
    institution: string,
    domain: string,
    scholarUrl: string,
    scholarLinked: bool)

  /** All six strings empty, no scholar profile linked. */
  const Initial := OnboardingFields("", "", "", "", "", "", false)

  class OnboardingStore {
    var email: string
    var password: string
    var role: string
    var institution: string
    var domain: string
    var scholarUrl: string
    var scholarLinked: bool

    function Fields(): OnboardingFields
      reads this
    {
      OnboardingFields(email, password, role, institution, domain, scholarUrl, scholarLinked)
    }

    constructor ()
      ensures Fields() == Initial
    {
      email, password, role, institution, domain := "", "", "", "", "";
      scholarUrl, scholarLinked := "", false;
    }

    method SetEmail(value: string)
      modifies this
      ensures Fields() == old(Fields()).(email := value)
    {
      email := value;
    }

    method SetPassword(value: string)
      modifies this
      ensures Fields() == old(Fields()).(password := value)
    {
      password := value;
    }

    method SetRole(value: string)
      modifies this
      ensures Fields() == old(Fields()).(role := value)
    {
      role := value;
    }

    method SetInstitution(value: string)
      modifies this
      ensures Fields() == old(Fields()).(institution := value)
    {
      institution := value;
    }

    method SetDomain(value: string)
      modifies this
      ensures Fields() == old(Fields()).(domain := value)
    {
      domain := value;
    }

    /** Sets the scholar URL and the linked flag together, nothing else. */
    method SetScholarData(url: string, linked: bool)
      modifies this
      ensures Fields() == old(Fields()).(scholarUrl := url, scholarLinked := linked)
    {
      scholarUrl, scholarLinked := url, linked;
    }

    /** From any state, back to exactly the initial state. */
    method Reset()
      modifies this
      ensures Fields() == Initial
    {
      email, password, role, institution, domain := "", "", "", "", "";
      scholarUrl, scholarLinked := "", false;
    }
  }

  /** Resetting twice is resetting once. */
  method ResetTwice(store: OnboardingStore)
    modifies store
    ensures store.Fields() == Initial
  {
    store.Reset();
    store.Reset();
  }

  /** A setter is last-writer-wins: two calls leave what the second alone leaves. */
  method SetScholarDataTwice(store: OnboardingStore, url1: string, linked1: bool, url2: string, linked2: bool)
    modifies store
    ensures store.Fields() == old(store.Fields()).(scholarUrl := url2, scholarLinked := linked2)
  {
    store.SetScholarData(url1, linked1);
    store.SetScholarData(url2, linked2);
  }

  /** The same holds of the single-field setters; shown for `setDomain`. */
  method SetDomainTwice(store: OnboardingStore, first: string, second: string)
    modifies store
    ensures store.Fields() == old(store.Fields()).(domain := second)
  {
    store.SetDomain(first);
    store.SetDomain(second);
  }
}
