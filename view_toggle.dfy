/**
 * The view-preference toggles: the provider and employer views can each be
 * switched, but a toggle whose other view is off is refused, so at least one
 * view stays enabled.
 */
module ViewToggle {

  /** What a toggle handler does: refuse with an alert, or call the parent's toggle once. */
  datatype Outcome = Refused(title: string) | Invoked

  /** `handleProviderToggle`: refused while the employer view is off. */
  function HandleProviderToggle(showAsProvider: bool, showAsEmployer: bool): (o: Outcome)
    ensures o.Invoked? <==> showAsEmployer
    ensures o.Refused? ==> o.title == "Cannot Disable Provider View"
  {
    if !showAsEmployer then Refused("Cannot Disable Provider View") else Invoked
  }

  /** `handleEmployerToggle`: refused while the provider view is off. */
  function HandleEmployerToggle(showAsProvider: bool, showAsEmployer: bool): (o: Outcome)
    ensures o.Invoked? <==> showAsProvider
    ensures o.Refused? ==> o.title == "Cannot Disable Employer View"
  {
    if !showAsProvider then Refused("Cannot Disable Employer View") else Invoked
  }

  /** The provider switch is disabled while the employer view is off. */
  predicate ProviderSwitchDisabled(showAsEmployer: bool) {
    !showAsEmployer
  }

  /** The employer switch is disabled while the provider view is off. */
  predicate EmployerSwitchDisabled(showAsProvider: bool) {
    !showAsProvider
  }

  /** A switch is disabled exactly when its handler would refuse. */
  lemma DisabledExactlyWhenRefused(showAsProvider: bool, showAsEmployer: bool)
    ensures ProviderSwitchDisabled(showAsEmployer) <==> HandleProviderToggle(showAsProvider, showAsEmployer).Refused?
    ensures EmployerSwitchDisabled(showAsProvider) <==> HandleEmployerToggle(showAsProvider, showAsEmployer).Refused?
  {
  }

  /** The two view flags. */
  datatype Views = Views(provider: bool, employer: bool)

  predicate SomeViewOn(v: Views) {
    v.provider || v.employer
  }

  /** The flags after a press on the provider switch, when the parent's toggle flips its flag. */
  function PressProvider(v: Views): Views {
    if HandleProviderToggle(v.provider, v.employer).Invoked? then v.(provider := !v.provider) else v
  }

  /** The flags after a press on the employer switch, when the parent's toggle flips its flag. */
  function PressEmployer(v: Views): Views {
    if HandleEmployerToggle(v.provider, v.employer).Invoked? then v.(employer := !v.employer) else v
  }

  /** One press never leaves both views off, and with only one view on, that view cannot be switched off. */
  lemma PressKeepsAView(v: Views)
    requires SomeViewOn(v)
    ensures SomeViewOn(PressProvider(v)) && SomeViewOn(PressEmployer(v))
    ensures !v.employer ==> PressProvider(v) == v
    ensures !v.provider ==> PressEmployer(v) == v
  {
  }

  /** The flags after a run of presses; `true` presses the provider switch, `false` the employer switch. */
  function PressAll(v: Views, presses: seq<bool>): Views
    decreases |presses|
  {
    if presses == [] then v
    else PressAll(if presses[0] then PressProvider(v) else PressEmployer(v), presses[1..])
  }

  /** However the switches are pressed, some view stays on. */
  lemma {:induction false} SomeViewAlwaysOn(v: Views, presses: seq<bool>)
    requires SomeViewOn(v)
    ensures SomeViewOn(PressAll(v, presses))
    decreases |presses|
  {
    if presses != [] {
      PressKeepsAView(v);
      SomeViewAlwaysOn(if presses[0] then PressProvider(v) else PressEmployer(v), presses[1..]);
    }
  }

  /** The status badges under the switches. */
  function ProviderStatus(showAsProvider: bool): (text: string)
    ensures text == "Provider Active" <==> showAsProvider
  {
    if showAsProvider then "Provider Active" else "Provider Disabled"
  }

  function EmployerStatus(showAsEmployer: bool): (text: string)
    ensures text == "Employer Active" <==> showAsEmployer
  {
    if showAsEmployer then "Employer Active" else "Employer Disabled"
  }
}
