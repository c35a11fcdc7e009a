/**
 * The cookie-consent record and the browser slot that holds it, shared by
 * the banner and the preferences dialog.
 */
module CookieConsent {
  import opened Wrappers

  /** `CookieConsent`; `timestamp` is the ISO string of the moment it was made. */
  datatype Consent = Consent(essential: bool, functional: bool, analytics: bool, timestamp: string)

  /**
   * `localStorage['cookieConsent']`. `None` is a missing entry. A present
   * entry may have been written by an earlier visit or by hand, so nothing
   * is assumed about its fields.
   */
  class ConsentStorage {
    var cookieConsent: Option<Consent>

    constructor (initial: Option<Consent>)
      ensures cookieConsent == initial
    {
      cookieConsent := initial;
    }
  }
}
