# Opposia landing page: waitlist backend, cookie consent and hash routing in Dafny

This project models the parts of the Opposia landing page that have behaviour
beyond markup:

- **The waitlist server function** (`WaitlistServer`). `POST /waitlist` reads
  `{email}` from the JSON body and answers 400 for a missing or falsy email
  or a string without `'@'`. Otherwise it writes `{email, timestamp, notified: false}`
  under the key `waitlist:<timestamp>:<email>` into a key-value store and
  tries to notify the administrator by mail, ignoring any failure of that
  attempt. It answers 200 once the write succeeds, and 500 for an unparsable
  or `null` body, a truthy non-string email (it has no `includes`), or a
  failed write. `GET /waitlist` returns every entry under `waitlist:`, or 500.
  `GET /health` returns `{status: "ok"}`. The store and the mail service are
  collaborators (`KvStore`, `Mailer`) whose failure is an `Outcome` parameter.
  The clock is a `now` string parameter. `Post` is the handler as a function.
  `Server.PostWaitlist` is the step-by-step handler and is proved equal to it.
- **Cookie consent** (`CookieConsent`, `CookiePreferences`, `CookieBanner`).
  The consent record is `{essential, functional, analytics, timestamp}`. The
  `localStorage['cookieConsent']` slot is `ConsentStorage`, an
  `Option<Consent>`. The banner (`Banner`) holds the `showBanner` and
  `showPreferences` flags, the pending mount timer and the mounted dialog. The
  dialog (`PreferencesDialog`) holds the draft being edited. Every consent the
  banner writes through Accept All, Reject All or the dialog's Save has
  `essential = true`.
- **Hash routing** (`App`). The current page is `location.hash` without its
  first character, or `home` when that leaves nothing. `privacy-policy` and
  `cookie-policy` render only their policy page. Every other page name renders
  the cookie banner together with the landing page.

The code has no rate limiting, duplicate suppression, lower-casing of
emails, HTML escaping, bearer-token check on the listing, body-size cap or
`count` field, and neither has the model. In particular, the same email
sent twice is stored twice (`SameEmailTwiceKeepsBoth`), and a malformed body
gets 500, not 400.

## Model

| member | source | states |
|---|---|---|
| `WaitlistServer.CheckEmail` | src/supabase/functions/server/index.tsx:36-38 | an email is accepted exactly when it is a string containing '@', and it is kept verbatim; a missing, empty, falsy or '@'-less email is rejected; a truthy non-string throws, because it has no `includes` |
| `WaitlistServer.WaitlistKey` | src/supabase/functions/server/index.tsx:42 | every signup key starts with `waitlist:` and has length prefix + timestamp + 1 + email |
| `WaitlistServer.ByPrefix` | src/supabase/functions/server/index.tsx:85 | the prefix scan holds exactly the store's keys that start with the prefix, each with its stored value |
| `WaitlistServer.Post` | src/supabase/functions/server/index.tsx:31-80 | the reply is one of 200 joined, 400 "Valid email is required" or 500 "Failed to process signup"; 400 exactly for a missing, falsy or '@'-less email; 200 exactly for a string email with '@' when the write succeeds, and then the store gains the one key `waitlist:now:email` holding `{email, now, notified: false}` and nothing else changes; the mail outbox grows by the admin notice only if the mail call succeeds; every other reply leaves store and outbox unchanged |
| `WaitlistServer.KvStore.Set` | src/supabase/functions/server/index.tsx:43-47 | a successful `kv.set` is a point update; a failed one changes nothing |
| `WaitlistServer.KvStore.GetByPrefix` | src/supabase/functions/server/index.tsx:85 | a successful `kv.getByPrefix` yields exactly the entries under the prefix, without changing the store |
| `WaitlistServer.Mailer.Send` | src/supabase/functions/server/index.tsx:52-68 | a delivered notice is appended to the outbox; a failed send changes nothing |
| `WaitlistServer.Server.Health` | src/supabase/functions/server/index.tsx:26-28 | health always answers 200 `{status: "ok"}` |
| `WaitlistServer.Server.PostWaitlist` | src/supabase/functions/server/index.tsx:31-80 | the handler's reply, new store and new outbox are those of `Post` on the old store and outbox |
| `WaitlistServer.Server.GetWaitlist` | src/supabase/functions/server/index.tsx:83-91 | a successful read answers 200 with exactly the entries under `waitlist:`; a failed read answers 500 "Failed to fetch signups"; the store is not modified |
| `WaitlistServer.KeysDifferForDistinctTimestamps` | src/supabase/functions/server/index.tsx:41-42 | one email at two different timestamps gets two different keys |
| `WaitlistServer.KeyInjective` | src/supabase/functions/server/index.tsx:41-42 | for timestamps of one width, equal keys mean equal timestamps and equal emails |
| `WaitlistServer.KeyAmbiguousAcrossWidths` | src/supabase/functions/server/index.tsx:42 | without a fixed timestamp width, two different (timestamp, email) pairs can build the same key |
| `WaitlistServer.ParseKeyInvertsKey` | src/supabase/functions/server/index.tsx:41-47 | from a key built with an ISO-width timestamp, the timestamp stored in the record and the email can be read back exactly |
| `WaitlistServer.AtSignAloneJoins` | src/supabase/functions/server/index.tsx:36-47 | the email "@" alone is accepted and stored verbatim as `{"@", now, false}` under `waitlist:now:@` |
| `WaitlistServer.MailOutcomeIgnored` | src/supabase/functions/server/index.tsx:52-75 | the reply and the store are the same whether the notification succeeds or fails |
| `WaitlistServer.SameEmailTwiceKeepsBoth` | src/supabase/functions/server/index.tsx:41-47 | two successful signups of one email at distinct timestamps both answer 200 and leave both records in the store, neither overwriting the other |
| `WaitlistServer.FailedPostChangesNothing` | src/supabase/functions/server/index.tsx:31-79 | an unparsable or `null` body, a truthy non-string email or a failed write yields an error reply and changes neither store nor outbox |
| `WaitlistServer.PostKeepsWellKeyed` | src/supabase/functions/server/index.tsx:41-47 | if every `waitlist:` entry sits under the key built from its own timestamp and email, this still holds after any request |
| `WaitlistServer.JoinedSignupIsListed` | src/supabase/functions/server/index.tsx:83-86 | after a successful signup, the listing contains its key holding `{email, now, notified: false}` |
| `CookiePreferences.FlipFunctional` | src/components/CookiePreferences.tsx:102 | the functional toggle changes `functional` and no other field |
| `CookiePreferences.FlipAnalytics` | src/components/CookiePreferences.tsx:135 | the analytics toggle changes `analytics` and no other field |
| `CookiePreferences.Finalize` | src/components/CookiePreferences.tsx:27-33 | the saved record has `essential` true, the draft's `functional` and `analytics`, and the save moment as timestamp |
| `CookiePreferences.PreferencesDialog.constructor` | src/components/CookiePreferences.tsx:12-17 | a new draft is essential on, functional off, analytics off |
| `CookiePreferences.PreferencesDialog.LoadSaved` | src/components/CookiePreferences.tsx:19-25 | a stored consent replaces the draft as it is; with no stored consent the draft is unchanged |
| `CookiePreferences.PreferencesDialog.ToggleFunctional` | src/components/CookiePreferences.tsx:101-102 | the draft becomes the functional flip of the old draft |
| `CookiePreferences.PreferencesDialog.ToggleAnalytics` | src/components/CookiePreferences.tsx:134-135 | the draft becomes the analytics flip of the old draft |
| `CookiePreferences.PreferencesDialog.Save` | src/components/CookiePreferences.tsx:27-33 | Save calls `onSave` with `essential` true and the draft's `functional` and `analytics` |
| `CookiePreferences.PreferencesDialog.Dismiss` | src/components/CookiePreferences.tsx:49-51 | Cancel and the header close button call `onClose` and never `onSave` |
| `CookiePreferences.FlipFunctionalTwice` | src/components/CookiePreferences.tsx:102 | toggling functional twice restores the draft |
| `CookiePreferences.FlipAnalyticsTwice` | src/components/CookiePreferences.tsx:135 | toggling analytics twice restores the draft |
| `CookiePreferences.FinalizeIdempotent` | src/components/CookiePreferences.tsx:27-33 | saving a saved record again at the same moment changes nothing; a record with `essential` off is never saved as it is |
| `CookieBanner.Banner.constructor` | src/components/CookieBanner.tsx:14-24 | the banner starts hidden with the dialog closed, and the show timer is set exactly when no consent is stored |
| `CookieBanner.Banner.Rendered` | src/components/CookieBanner.tsx:57-148 | nothing renders while `showBanner` is false; otherwise exactly one of banner body and dialog renders, the body only while `showPreferences` is false, the dialog exactly while it is true |
| `CookieBanner.Banner.TimerFires` | src/components/CookieBanner.tsx:22 | the pending timer shows the banner body |
| `CookieBanner.Banner.AcceptAll` | src/components/CookieBanner.tsx:26-36 | stores essential, functional and analytics all true, then hides the banner |
| `CookieBanner.Banner.RejectAll` | src/components/CookieBanner.tsx:38-48 | stores essential true, functional and analytics false, then hides the banner |
| `CookieBanner.Banner.CloseBanner` | src/components/CookieBanner.tsx:130-131 | the close button hides the banner and leaves the stored consent as it was |
| `CookieBanner.Banner.OpenPreferences` | src/components/CookieBanner.tsx:120-121 | opens a fresh dialog whose draft is the stored consent if there is one, else the defaults |
| `CookieBanner.Banner.ToggleFunctional` | src/components/CookiePreferences.tsx:101-102 | the functional switch flips the mounted dialog's draft |
| `CookieBanner.Banner.ToggleAnalytics` | src/components/CookiePreferences.tsx:134-135 | the analytics switch flips the mounted dialog's draft |
| `CookieBanner.Banner.HandleSavePreferences` | src/components/CookieBanner.tsx:50-55 | stores exactly the record passed in and sets both `showPreferences` and `showBanner` to false |
| `CookieBanner.Banner.Dispatch` | src/components/CookieBanner.tsx:143-148 | `onClose` closes the dialog and keeps the banner and the stored consent; `onSave` stores its record and hides everything |
| `CookieBanner.Banner.SavePreferences` | src/components/CookiePreferences.tsx:170-175 | Save in the dialog stores the finalized draft, which has `essential` true, and hides everything; no show timer stays pending, so the banner does not come back |
| `CookieBanner.Banner.ClosePreferences` | src/components/CookiePreferences.tsx:164-169 | Cancel returns to the banner body, stores nothing and leaves no show timer pending |
| `App.PageFromHash` | src/App.tsx:11-13 | the page is the hash without its first character, and `home` when that is empty; never empty |
| `App.ScreenFor` | src/App.tsx:24-37 | `privacy-policy` renders only the privacy policy, `cookie-policy` only the cookie policy, every other name the banner with the landing page |
| `App.Shell.constructor` | src/App.tsx:8 | the initial page is `home`, which renders the banner with the landing page |
| `App.Shell.HandleHashChange` | src/App.tsx:11-14 | the current page becomes the page of the new hash, which is one step of `AfterHashChanges` |
| `App.LatestHashDecides` | src/App.tsx:11-20 | after any non-empty series of `hashchange` events, each one a `HandleHashChange` step, the page depends only on the last hash |
| `App.EmptyHashIsHome` | src/App.tsx:12-13 | an empty hash or `#` alone gives `home` and the landing page |
| `App.PolicyHashes` | src/App.tsx:24-30 | a policy page renders exactly when the hash after its first character is that policy's name |
| `App.UnknownHashIsLanding` | src/App.tsx:32-37 | any other non-empty page name renders the banner with the landing page |

## Left out

- Hono routing, the logger middleware, CORS settings, `Deno.serve` and the route prefix `make-server-cbc95482` are framework plumbing. They are not modelled.
- The body of the notification mail (its HTML, subject and `toLocaleString` of the time) is not modelled. A notice records only sender, recipient, email and timestamp.
- `console.log` and `console.error` calls are not modelled.
- An `email` that is a JSON array is not modelled, and `EmailField` has no case for it. An array's `includes('@')` compares whole elements, not characters. So `[]` and `["a@b.com"]` are rejected with 400, as a missing email would be. Only an array with the element `"@"` itself, such as `["@"]` or `["x", "@"]`, passes the check. It is then stored with the array as its email and answered 200.
- JavaScript falsiness is abstracted to `NonText(truthy)` for non-string values. Numbers, booleans, `null` and objects are not distinguished further.
- `./kv_store.tsx` is not part of this model. The store is a `map<string, Signup>`. Its values are only what this handler writes, not arbitrary JSON.
- `WaitlistServer.KvStore.Set`: a `kv.set` that throws is assumed to have written nothing. `FailedPostChangesNothing` leaves the store unchanged on a failed write only under this assumption.
- `WaitlistServer.Server.GetWaitlist`: the reply carries the entries under `waitlist:` as a map from key to record. `kv.getByPrefix` is assumed to return a JSON array of the stored values alone, in some order of its own. Neither the array form nor that order is modelled.
- Interleaving of concurrent requests at their `await` points is not modelled. Each request runs to completion.
- Timestamps are opaque strings (`now`). `Date().toISOString()` is not modelled. The ISO width of 24 characters appears only as the hypothesis of `KeyInjective` and `ParseKeyInvertsKey`.
- `App` unmounts `CookieBanner` while a policy page is shown, and the banner's own policy links lead there. Each mount is a fresh `Banner`: its flags are lost, and the timer is set again when no consent is stored, so a banner closed with its X comes back after a visit to a policy page. The model does not link `Banner` to `Shell`, so it does not capture this.
- The one-second delay of the banner's timer is not modelled. `TimerFires` is the moment it elapses.
- `JSON.stringify` / `JSON.parse` of the stored consent are not modelled. The slot holds the record itself, and a stored record is trusted to parse.
- The `motion` animations are not modelled.
- `openCookiePreferences` is not modelled. It dispatches an event that nothing in the shown code listens to.
- `LandingPage.tsx`, `SignUpForm.tsx` and the static policy, hero, feature, footer and logo components are not part of this model. They never reach the backend or the consent state.
