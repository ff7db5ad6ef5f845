/** The branding defaults of layouts/branding.go. */
module Layouts {

  /** `AppBranding`. */
  datatype AppBranding = AppBranding(name: string, logoFullUrl: string, href: string)

  /** `DefaultLogoUrl`: the configured logo, or "/assets/logo.png" when none is set. */
  function DefaultLogoUrl(b: AppBranding): (url: string)
    ensures b.logoFullUrl != "" ==> url == b.logoFullUrl
    ensures b.logoFullUrl == "" ==> url == "/assets/logo.png"
    ensures url != ""
  {
    if b.logoFullUrl == "" then "/assets/logo.png" else b.logoFullUrl
  }

  /** `DefaultHref`: the configured link, or "/" when none is set. */
  function DefaultHref(b: AppBranding): (href: string)
    ensures b.href != "" ==> href == b.href
    ensures b.href == "" ==> href == "/"
    ensures href != ""
  {
    if b.href == "" then "/" else b.href
  }

  /** `DefaultName`: the configured name, or "App" when none is set. */
  function DefaultName(b: AppBranding): (name: string)
    ensures b.name != "" ==> name == b.name
    ensures b.name == "" ==> name == "App"
    ensures name != ""
  {
    if b.name == "" then "App" else b.name
  }

  /** A branding whose fields are the defaults' answers has nothing left to default. */
  lemma DefaultsSettle(b: AppBranding)
    ensures var d := AppBranding(DefaultName(b), DefaultLogoUrl(b), DefaultHref(b));
      DefaultName(d) == d.name && DefaultLogoUrl(d) == d.logoFullUrl && DefaultHref(d) == d.href
  {
  }
}
