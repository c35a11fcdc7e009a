/**
 * The cookie banner: shown once a second after mounting when no consent is
 * stored, it records Accept All / Reject All, opens the preferences dialog
 * and stores what the dialog saves.
 */
module CookieBanner {
  import opened Wrappers
  import opened CookieConsent
  import opened CookiePreferences

  /** Which parts of the banner are on screen. */
  datatype View = View(bannerBody: bool, dialog: bool)

  class Banner {
    const storage: ConsentStorage
    var showBanner: bool
    var showPreferences: bool
    /** The mount effect's one-second timer is set and has not fired yet. */
    var showPending: bool
    /** The mounted preferences dialog, if any. */
    var dialog: PreferencesDialog?

    /**
     * The states the handlers can reach: the dialog is mounted exactly while
     * `showPreferences` holds, it is only opened from a visible banner, and
     * the timer is only pending while the banner is hidden.
     */
    ghost predicate Valid()
      reads this
    {
      && (dialog != null <==> showPreferences)
      && (showPreferences ==> showBanner)
      && (showPending ==> !showBanner)
    }

    /** First render followed by the mount effect. */
    constructor (storage: ConsentStorage)
      ensures Valid() && this.storage == storage
      ensures !showBanner && !showPreferences
      ensures showPending <==> storage.cookieConsent.None?
    {
      this.storage := storage;
      showBanner := false;
      showPreferences := false;
      dialog := null;
      showPending := storage.cookieConsent.None?;
    }

    /** What the component returns. */
    function Rendered(): (v: View)
      reads this
      ensures !(v.bannerBody && v.dialog)
      ensures v.bannerBody || v.dialog <==> showBanner
      ensures v.bannerBody ==> !showPreferences
      ensures Valid() ==> (v.dialog <==> showPreferences)
    {
      if !showBanner then View(false, false)
      else View(!showPreferences, showPreferences)
    }

    /** The one-second timeout fires. */
    method TimerFires()
      requires Valid() && showPending
      modifies this
      ensures Valid()
      ensures showBanner && !showPreferences && !showPending
      ensures Rendered() == View(true, false)
    {
      showBanner := true;
      showPending := false;
    }

    /** Accept All. */
    method AcceptAll(now: string)
      requires Valid() && Rendered().bannerBody
      modifies this, storage
      ensures Valid()
      ensures storage.cookieConsent == Some(Consent(true, true, true, now))
      ensures !showBanner && Rendered() == View(false, false)
      ensures showPreferences == old(showPreferences) && showPending == old(showPending)
    {
      storage.cookieConsent := Some(Consent(true, true, true, now));
      showBanner := false;
    }

    /** Reject All: essential cookies stay on. */
    method RejectAll(now: string)
      requires Valid() && Rendered().bannerBody
      modifies this, storage
      ensures Valid()
      ensures storage.cookieConsent == Some(Consent(true, false, false, now))
      ensures !showBanner && Rendered() == View(false, false)
      ensures showPreferences == old(showPreferences) && showPending == old(showPending)
    {
      storage.cookieConsent := Some(Consent(true, false, false, now));
      showBanner := false;
    }

    /** The close button of the banner body: hides it and writes nothing. */
    method CloseBanner()
      requires Valid() && Rendered().bannerBody
      modifies this
      ensures Valid()
      ensures !showBanner && Rendered() == View(false, false)
      ensures storage.cookieConsent == old(storage.cookieConsent)
      ensures showPreferences == old(showPreferences) && showPending == old(showPending)
    {
      showBanner := false;
    }

    /** Preferences: mounts the dialog, which loads any stored consent. */
    method OpenPreferences(now: string)
      requires Valid() && Rendered().bannerBody
      modifies this
      ensures Valid()
      ensures showBanner && showPreferences && Rendered() == View(false, true)
      ensures dialog != null && fresh(dialog)
      ensures storage.cookieConsent.Some? ==> dialog.preferences == storage.cookieConsent.value
      ensures storage.cookieConsent.None? ==> dialog.preferences == DefaultPreferences(now)
      ensures storage.cookieConsent == old(storage.cookieConsent) && showPending == old(showPending)
    {
      var d := new PreferencesDialog(now);
      d.LoadSaved(storage);
      dialog := d;
      showPreferences := true;
    }

    /** The functional switch in the dialog. */
    method ToggleFunctional()
      requires Valid() && Rendered().dialog
      modifies dialog
      ensures Valid() && Rendered().dialog
      ensures dialog.preferences == FlipFunctional(old(dialog.preferences))
    {
      dialog.ToggleFunctional();
    }

    /** The analytics switch in the dialog. */
    method ToggleAnalytics()
      requires Valid() && Rendered().dialog
      modifies dialog
      ensures Valid() && Rendered().dialog
      ensures dialog.preferences == FlipAnalytics(old(dialog.preferences))
    {
      dialog.ToggleAnalytics();
    }

    /** `handleSavePreferences`: stores exactly the record it is given and hides everything. */
    method HandleSavePreferences(preferences: Consent)
      requires Valid() && showPreferences
      modifies this, storage
      ensures Valid()
      ensures storage.cookieConsent == Some(preferences)
      ensures !showPreferences && !showBanner && Rendered() == View(false, false)
      ensures showPending == old(showPending)
    {
      storage.cookieConsent := Some(preferences);
      showPreferences := false;
      dialog := null;
      showBanner := false;
    }

    /** How the banner wires the dialog's `onClose` and `onSave` callbacks. */
    method Dispatch(cb: Callback)
      requires Valid() && showPreferences
      modifies this, storage
      ensures Valid() && !showPreferences
      ensures cb == OnClose ==> storage.cookieConsent == old(storage.cookieConsent) && showBanner
      ensures cb == OnClose ==> Rendered() == View(true, false)
      ensures cb.OnSave? ==> storage.cookieConsent == Some(cb.consent) && !showBanner
      ensures showPending == old(showPending)
    {
      match cb
      case OnClose =>
        showPreferences := false;
        dialog := null;
      case OnSave(c) =>
        HandleSavePreferences(c);
    }

    /** Save Preferences in the dialog. */
    method SavePreferences(now: string)
      requires Valid() && Rendered().dialog
      modifies this, storage
      ensures Valid()
      ensures storage.cookieConsent == Some(Finalize(old(dialog.preferences), now))
      ensures storage.cookieConsent.value.essential
      ensures !showBanner && !showPreferences && !showPending && Rendered() == View(false, false)
    {
      var cb := dialog.Save(now);
      Dispatch(cb);
    }

    /** Cancel or the dialog's close button: back to the banner, nothing stored. */
    method ClosePreferences()
      requires Valid() && Rendered().dialog
      modifies this, storage
      ensures Valid()
      ensures storage.cookieConsent == old(storage.cookieConsent)
      ensures showBanner && !showPreferences && !showPending && Rendered() == View(true, false)
    {
      var cb := dialog.Dismiss();
      Dispatch(cb);
    }
  }
}
