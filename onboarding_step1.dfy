/** Onboarding step 1: the role and domain checks behind the Next button,
    and the domain cards. */
module Step1Page {
  import Onboarding

  const DOMAIN_OPTIONS := ["Finance", "Healthcare", "Quantum Computing"]
  const ROLE_PLACEHOLDER := "Select your role..."
  const ROLE_ALERT := "Please select a role to continue."
  const DOMAIN_ALERT := "Please select a domain of interest."
  const STEP2_ROUTE := "/onboarding/step2"

  /** What pressing Next does: an alert and no navigation, or a navigation. */
  datatype NextOutcome = Alert(message: string) | Navigate(route: string)

  predicate RoleChosen(role: string)
  {
    role != "" && role != ROLE_PLACEHOLDER
  }

  /** `handleNext`: the role is checked before the domain. */
  function HandleNext(role: string, domain: string): (o: NextOutcome)
    ensures !RoleChosen(role) ==> o == Alert(ROLE_ALERT)
    ensures RoleChosen(role) && domain == "" ==> o == Alert(DOMAIN_ALERT)
    ensures o.Navigate? <==> RoleChosen(role) && domain != ""
    ensures o.Navigate? ==> o.route == STEP2_ROUTE
  {
    if role == "" || role == ROLE_PLACEHOLDER then Alert(ROLE_ALERT)
    else if domain == "" then Alert(DOMAIN_ALERT)
    else Navigate(STEP2_ROUTE)
  }

  /** A click on the domain card at `index`: only the three offered domains can be set this way. */
  method SelectDomainCard(store: Onboarding.OnboardingStore, index: nat)
    requires index < |DOMAIN_OPTIONS|
    modifies store
    ensures store.Fields() == old(store.Fields()).(domain := DOMAIN_OPTIONS[index])
    ensures store.domain in DOMAIN_OPTIONS
  {
    store.SetDomain(DOMAIN_OPTIONS[index]);
  }
}
