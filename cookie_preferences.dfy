/**
 * The cookie-preferences dialog: a draft consent the user edits with two
 * toggles and then either saves or dismisses.
 */
module CookiePreferences {
  import opened Wrappers
  import opened CookieConsent

  /** The draft a freshly opened dialog starts from. */
  function DefaultPreferences(now: string): Consent
  {
    Consent(true, false, false, now)
  }

  /** The functional switch. */
  function FlipFunctional(p: Consent): (q: Consent)
    ensures q.functional != p.functional
    ensures q.(functional := p.functional) == p
  {
    p.(functional := !p.functional)
  }

  /** The analytics switch. */
  function FlipAnalytics(p: Consent): (q: Consent)
    ensures q.analytics != p.analytics
    ensures q.(analytics := p.analytics) == p
  {
    p.(analytics := !p.analytics)
  }

  /** The record the Save button hands over. */
  function Finalize(p: Consent, now: string): (c: Consent)
    ensures c.essential
    ensures c.functional == p.functional && c.analytics == p.analytics
    ensures c.timestamp == now
  {
    p.(essential := true, timestamp := now)
  }

  /** The two callbacks the dialog can invoke on its owner. */
  datatype Callback = OnClose | OnSave(consent: Consent)

  class PreferencesDialog {
    var preferences: Consent

    /** Mounting: the draft starts from the defaults. */
    constructor (now: string)
      ensures preferences.essential && !preferences.functional && !preferences.analytics
      ensures preferences.timestamp == now
    {
      preferences := DefaultPreferences(now);
    }

    /** The load effect: a stored consent replaces the draft as it is. */
    method LoadSaved(storage: ConsentStorage)
      modifies this
      ensures storage.cookieConsent.Some? ==> preferences == storage.cookieConsent.value
      ensures storage.cookieConsent.None? ==> preferences == old(preferences)
    {
      if storage.cookieConsent.Some? {
        preferences := storage.cookieConsent.value;
      }
    }

    method ToggleFunctional()
      modifies this
      ensures preferences == FlipFunctional(old(preferences))
    {
      preferences := FlipFunctional(preferences);
    }

    method ToggleAnalytics()
      modifies this
      ensures preferences == FlipAnalytics(old(preferences))
    {
      preferences := FlipAnalytics(preferences);
    }

    /** Save Preferences: hands over the draft with `essential` forced on. */
    method Save(now: string) returns (cb: Callback)
      ensures cb.OnSave? && cb.consent.essential
      ensures cb.consent.functional == preferences.functional
      ensures cb.consent.analytics == preferences.analytics
      ensures cb.consent.timestamp == now
    {
      cb := OnSave(Finalize(preferences, now));
    }

    /** Cancel and the header's close button: both only close the dialog. */
    method Dismiss() returns (cb: Callback)
      ensures cb == OnClose
    {
      cb := OnClose;
    }
  }

  /** Flipping the functional switch twice restores the draft. */
  lemma FlipFunctionalTwice(p: Consent)
    ensures FlipFunctional(FlipFunctional(p)) == p
  {
  }

  /** Flipping the analytics switch twice restores the draft. */
  lemma FlipAnalyticsTwice(p: Consent)
    ensures FlipAnalytics(FlipAnalytics(p)) == p
  {
  }

  /**
   * Saving keeps the user's choices and repairs a stored record whose
   * `essential` was off: saving again at the same moment changes nothing.
   */
  lemma FinalizeIdempotent(p: Consent, now: string)
    ensures Finalize(Finalize(p, now), now) == Finalize(p, now)
    ensures !p.essential ==> Finalize(p, now) != p
  {
  }
}
