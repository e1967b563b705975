# Localli landing page — a Dafny model of its logic

The Localli landing page is a single scrolling marketing page for a
local-services marketplace, plus a serverless endpoint that stores business
leads. Almost all of it is presentation. This project models the parts that
hold logic, one Dafny module per source file:

- **SubmitLead** (`submit_lead.dfy`): the `POST /api/submit-lead` handler.
  It covers the method gate, decoding a string body as JSON, the required-field
  check with JavaScript truthiness, the row built for the `leads` table
  (`phone` and `source` default to `null`), and the mapping of each outcome to
  a status and a JSON body. The handler is a total function
  `Handle(request, parse, store)`. `parse` stands for `JSON.parse`, with `None`
  meaning it throws. `store` is what the awaited insert does: succeed, report
  an error, or reject. The result is the one response sent plus the insert
  calls made.
- **CountdownSection** (`countdown.dfy`): `calculateTimeLeft`, written with the
  source's real division, JavaScript's truncating `%` and `Math.floor`. It is
  proved equal to an integer div/mod split, and from that the bounds, the
  recomposition identity and monotonicity in `now` follow. Also modelled: the
  two-digit display `String(v).padStart(2, "0")` and the component whose
  `timeLeft` is recomputed on each 1 s tick. Instants are integer
  milliseconds and the clock reading is a parameter.
- **EarlyAccess** (`early_access_form.dfy`) and **BusinessSignup**
  (`business_signup_form.dfy`): each form is a class with its
  `isSubmitting`/`isSubmitted` flags, its field values and its schema. The
  early-access form keeps a log of the requests `fetch` issued and of the
  alerts shown. The business form only logs to the console. Each asynchronous
  `onSubmit` is split at its `await`: `Submit` is the synchronous part, and
  `Complete` / `DelayElapsed` is what runs after the request or the pause.
  The schema's email check is a predicate handed to the form.
- **FooterNewsletter** (`footer.dfy`): the newsletter field,
  `handleSubscribe`, and the 3000 ms reset of `isSubscribed`. A timer firing
  is an event.
- **Theme** (`theme_toggle.dfy`): the theme chosen on mount from
  `localStorage` and the system preference, and `toggleTheme`. Both write the
  document's `dark` class, and the toggle also writes storage.
- **HeroSection** (`hero.dfy`): the two modal flags and the first-visit timed
  modal, which uses `localStorage` and a 5000 ms timer.
- **VisionCarousel** (`vision.dfy`): the rotating index (modulo 3), selection
  by dot, and the active dot.

Shared modules: `Wrappers` (an `Option`), `JsValues` (JavaScript values,
truthiness, `||` and property reads), and `Browser` (`localStorage` as a
`map<string, string>`, and the root element's `dark` class).

Three behaviours of the handler that are easy to misread:

- The handler turns any falsy `phone` or `source` into `null`, including `""`
  and `0`, not only absent ones.
- A body that decodes to a non-object value, such as a number or a string,
  gets 400, not 500. Destructuring such a value succeeds and yields
  `undefined` fields.
- An insert that rejects instead of returning `{error}` is caught by the
  outer `try` and answered with 500 "Server error".

## Model

| member | source | states |
|---|---|---|
| SubmitLead.Handle | api/submit-lead.ts:12-48 | every request gets exactly one response with status in {200, 400, 405, 500}; 405 exactly for a method other than POST; at most one insert call, into "leads", of one row; 200 only after an insert that succeeded |
| SubmitLead.DecodeBody | api/submit-lead.ts:18 | a string body is what `JSON.parse` makes of it; any other body is used as it is |
| SubmitLead.HasRequiredFields | api/submit-lead.ts:22 | the required-field check passes exactly for an object whose `business_name` and `email` are both present and truthy |
| SubmitLead.BuildRow | api/submit-lead.ts:27-35 | the row passes `business_name`, `email` and `service_category` through unchanged; `phone` and `source` are kept when truthy and become null otherwise |
| SubmitLead.NonPostRejected | api/submit-lead.ts:13-15 | a method other than POST gives 405 `{error: "Method not allowed"}` with no insert, whatever the body, the parser or the database |
| SubmitLead.UndecodableBodyIsServerError | api/submit-lead.ts:17-46 | an unparsable string body, or one that decodes to null or undefined, gives 500 "Server error" with no insert |
| SubmitLead.MissingFieldsRejected | api/submit-lead.ts:22-24 | a falsy `business_name` or `email` gives 400 "Missing required fields" with no insert |
| SubmitLead.ValidRequestInsertsOneRow | api/submit-lead.ts:22-35 | any truthy email passes (no format check); then exactly one row is inserted into "leads" |
| SubmitLead.InsertErrorHidesDetail | api/submit-lead.ts:37-40 | an insert error gives 500 "Database insert failed", and the response is the same whatever the error detail |
| SubmitLead.InsertRejectionIsServerError | api/submit-lead.ts:27-45 | an insert that rejects is caught: 500 "Server error", after exactly one attempt |
| SubmitLead.SuccessExactly | api/submit-lead.ts:13-42 | 200 `{success: true}` if and only if a POST decodes to a record with both required fields and the insert succeeds |
| SubmitLead.InsertAttemptedExactly | api/submit-lead.ts:13-35 | an insert is attempted if and only if a POST decodes to a record with truthy `business_name` and `email` |
| SubmitLead.ScenarioValidLead | api/submit-lead.ts:27-42 | `{business_name: "Joe's Plumbing", email: "joe@example.com"}` inserts one row with null phone and source, then 200 |
| SubmitLead.ScenarioMissingBusinessName | api/submit-lead.ts:22-24 | `{email: "joe@example.com"}` gives 400 and no insert |
| SubmitLead.ScenarioGet | api/submit-lead.ts:13-15 | GET gives 405 `{error: "Method not allowed"}` |
| CountdownSection.CalculateTimeLeft | src/components/landing/Countdown.tsx:22-37 | a difference that is not positive gives all zeros; otherwise days >= 0, hours in [0,24), minutes and seconds in [0,60), and days*86400 + hours*3600 + minutes*60 + seconds equals the whole seconds left |
| CountdownSection.Trunc | src/components/landing/Countdown.tsx:33-35 | the truncated quotient inside JavaScript's `%` rounds toward zero: within 1 below a non-negative x, within 1 above a negative one |
| CountdownSection.JsRem | src/components/landing/Countdown.tsx:33-35 | the JavaScript remainder of a non-negative x by a positive m lies in [0, m) |
| CountdownSection.RemainderBounds | src/components/landing/Countdown.tsx:33-35 | subtracting m times the whole part of x/m leaves a value in [0, m) |
| CountdownSection.CalculateTimeLeftIsIntegral | src/components/landing/Countdown.tsx:32-35 | for a positive difference, the floating-point formulas (exact reals) give exactly integer division and remainder of the milliseconds |
| CountdownSection.FloorOfRem | src/components/landing/Countdown.tsx:33-35 | `Math.floor(x % m)` of a non-negative x is the integer remainder of `Math.floor(x)` by m |
| CountdownSection.RecomposeSeconds | src/components/landing/Countdown.tsx:32-35 | the integer split recomposes to the difference divided by 1000 |
| CountdownSection.LaterNowNeverMoreTime | src/components/landing/Countdown.tsx:25-35 | a later `now` never gives a larger total of seconds left |
| CountdownSection.DecimalString | src/components/landing/Countdown.tsx:62 | `String(n)` is never empty and starts with a minus sign exactly for negative n |
| CountdownSection.PadStart2 | src/components/landing/Countdown.tsx:62 | `padStart(2, "0")` leaves a string of 2 or more characters as it is and prepends "0"s up to length 2 otherwise |
| CountdownSection.UnitText | src/components/landing/Countdown.tsx:62 | a unit's text is `String(value)` when that has 2 or more characters, and "0" followed by it otherwise |
| CountdownSection.UnitTextShape | src/components/landing/Countdown.tsx:62 | the unit text has at least 2 characters, exactly 2 below 100; 0..9 gets a leading "0"; 10 and above are printed unchanged, with no leading "0"; for a non-negative value the text is all digits and reads back as the value |
| CountdownSection.DecimalStringDigits | src/components/landing/Countdown.tsx:62 | `String(n)` of a non-negative n is all decimal digits, with no leading "0" unless n is 0 |
| CountdownSection.DecimalStringRoundTrip | src/components/landing/Countdown.tsx:62 | `String(n)` of a non-negative n is a digit string that reads back as n |
| CountdownSection.DecimalStringLength | src/components/landing/Countdown.tsx:62 | `String(n)` is one character exactly for 0..9 |
| CountdownSection.Countdown.constructor | src/components/landing/Countdown.tsx:75 | the initial state is the time left at the mount instant, with every unit in its range |
| CountdownSection.Countdown.Tick | src/components/landing/Countdown.tsx:79-85 | each 1000 ms tick overwrites `timeLeft` with the time left at that instant and keeps every unit in its range |
| CountdownSection.Countdown.Shown | src/components/landing/Countdown.tsx:126-129 | four unit texts are shown, days, hours, minutes, seconds in that order; each is all decimal digits and reads back as its unit; the days take at least 2 characters, exactly 2 below 100 days, with no leading "0" from 10 days on, and the other three exactly 2 |
| EarlyAccess.SchemaAccepts | src/components/landing/EarlyAccessForm.tsx:34-38 | the schema accepts exactly when the email passes the email check |
| EarlyAccess.OnlyEmailIsChecked | src/components/landing/EarlyAccessForm.tsx:34-38 | the schema accepts exactly when the email passes the email check; first and last name are optional |
| EarlyAccess.EarlyAccessForm.constructor | src/components/landing/EarlyAccessForm.tsx:43-51 | both flags start false, the fields hold the empty defaults, nothing has been sent |
| EarlyAccess.EarlyAccessForm.Button | src/components/landing/EarlyAccessForm.tsx:140-147 | the button shows the spinner, and is disabled, exactly while submitting |
| EarlyAccess.EarlyAccessForm.Edit | src/components/landing/EarlyAccessForm.tsx:89-138 | typing changes the field values and nothing else |
| EarlyAccess.EarlyAccessForm.Submit | src/components/landing/EarlyAccessForm.tsx:53-60 | valid data with the button enabled sets `isSubmitting` and issues exactly one POST to `/api/submit-early-user` carrying the form data; otherwise nothing changes |
| EarlyAccess.EarlyAccessForm.Complete | src/components/landing/EarlyAccessForm.tsx:62-71 | an ok response ends with `isSubmitting` false, `isSubmitted` true and the fields reset; a non-ok response or a rejection alerts once, ends with both flags false and keeps the fields |
| EarlyAccess.EarlyAccessForm.AddAnother | src/components/landing/EarlyAccessForm.tsx:171-177 | "Add another user" sets `isSubmitted` false and changes nothing else |
| EarlyAccess.InvalidEmailSendsNothing | src/components/landing/EarlyAccessForm.tsx:87 | an email failing the check blocks `onSubmit`: no request is issued |
| EarlyAccess.ValidEmailSendsOnce | src/components/landing/EarlyAccessForm.tsx:53-66 | a valid email is sent in exactly one POST even if submit is pressed twice, and success leaves the form submitted and reset |
| BusinessSignup.SchemaAccepts | src/components/landing/BusinessSignupForm.tsx:42-48 | a name shorter than 2 characters, an email failing the check, or an empty category is rejected; accepted data has a non-empty name and category |
| BusinessSignup.DefaultsRejected | src/components/landing/BusinessSignupForm.tsx:42-87 | the all-empty defaults fail validation whatever the email check says |
| BusinessSignup.PhoneAndSourceOptional | src/components/landing/BusinessSignupForm.tsx:45-47 | phone and source play no part in validation |
| BusinessSignup.AnyCategoryAccepted | src/components/landing/BusinessSignupForm.tsx:42-63 | with a valid name and email, every non-empty category is accepted, including "Plumbing", which is not one of the ten listed |
| BusinessSignup.BusinessSignupForm.constructor | src/components/landing/BusinessSignupForm.tsx:74-88 | both flags start false and the fields hold the empty defaults |
| BusinessSignup.BusinessSignupForm.Button | src/components/landing/BusinessSignupForm.tsx:324-344 | the button shows the spinner, and is disabled, exactly while submitting |
| BusinessSignup.BusinessSignupForm.Edit | src/components/landing/BusinessSignupForm.tsx:205-322 | editing changes the field values and nothing else |
| BusinessSignup.BusinessSignupForm.Submit | src/components/landing/BusinessSignupForm.tsx:90-92 | valid data (name of 2 or more characters, an email, a category) with the button enabled sets `isSubmitting` and is only logged; otherwise nothing changes |
| BusinessSignup.BusinessSignupForm.DelayElapsed | src/components/landing/BusinessSignupForm.tsx:93-95 | the simulated submit always ends with `isSubmitting` false and `isSubmitted` true, fields unchanged |
| BusinessSignup.BusinessSignupForm.AddAnother | src/components/landing/BusinessSignupForm.tsx:367-373 | "Add another business" sets `isSubmitted` false and changes nothing else |
| BusinessSignup.SubmitKeepsFields | src/components/landing/BusinessSignupForm.tsx:90-96 | after a successful submit the fields still hold what was typed |
| FooterNewsletter.Footer.constructor | src/components/landing/Footer.tsx:33-34 | the field starts empty and `isSubscribed` false |
| FooterNewsletter.Footer.SetEmail | src/components/landing/Footer.tsx:120-127 | typing sets the field and nothing else |
| FooterNewsletter.Footer.HandleSubscribe | src/components/landing/Footer.tsx:36-44 | an empty field changes nothing; otherwise the address is only logged, `isSubscribed` becomes true, a reset is scheduled and the field is cleared |
| FooterNewsletter.Footer.ResetTimerFires | src/components/landing/Footer.tsx:41 | the 3000 ms timer sets `isSubscribed` false and nothing else |
| FooterNewsletter.Footer.Button | src/components/landing/Footer.tsx:129-131 | the button shows "Subscribed!" exactly when `isSubscribed` |
| FooterNewsletter.SubscribeThenReset | src/components/landing/Footer.tsx:36-44 | subscribing shows "Subscribed!" and empties the field; after the timer the arrow is back |
| Theme.ShouldBeDark | src/components/landing/ThemeToggle.tsx:18-20 | a stored "dark" gives dark; a stored "light" (or any other non-empty value) gives light; nothing or "" stored follows the system preference |
| Theme.StoredValue | src/components/landing/ThemeToggle.tsx:29 | the toggle stores "dark" exactly for the dark theme and "light" exactly for the light one |
| Theme.StoredThemeRoundTrip | src/components/landing/ThemeToggle.tsx:20-29 | the value the toggle stores reads back as the same theme whatever the system prefers |
| Theme.ThemeToggle.constructor | src/components/landing/ThemeToggle.tsx:15 | `isDark` starts false |
| Theme.ThemeToggle.Mount | src/components/landing/ThemeToggle.tsx:17-23 | mounting sets `isDark` by the stored value and the preference, sets the `dark` class to match, and writes nothing |
| Theme.ThemeToggle.Toggle | src/components/landing/ThemeToggle.tsx:25-30 | toggling flips `isDark`, sets the `dark` class to match, and stores "dark" exactly when the new theme is dark |
| Theme.ReloadAfterToggle | src/components/landing/ThemeToggle.tsx:17-30 | mounting again after a toggle gives the toggled theme |
| HeroSection.SchedulesTimedModal | src/components/landing/Hero.tsx:28-30 | the timed modal is scheduled when `hasSeenEarlyModal` is absent or holds "", and not when it holds anything else |
| HeroSection.MarkSeen | src/components/landing/Hero.tsx:34 | the timer writes "true" under one key and leaves every other key as it was |
| HeroSection.ModalReopensAfterBeingSeen | src/components/landing/Hero.tsx:27-35 | as written, once the timer has fired and written its key, the next mount schedules the timed modal again |
| HeroSection.CorrectedModalShownOnce | src/components/landing/Hero.tsx:27-35 | writing the key that is read means the next mount does not schedule the modal |
| HeroSection.AsWrittenEveryVisit | src/components/landing/Hero.tsx:27-39 | as written, a first-time visitor gets the timed modal on every visit |
| HeroSection.CorrectedFirstVisitOnly | src/components/landing/Hero.tsx:27-39 | corrected, the timed modal comes on the first visit only |
| HeroSection.NeverAgain | src/components/landing/Hero.tsx:28-30 | once the read key holds a non-empty value, no visit schedules the modal, whichever key the timer writes |
| HeroSection.Hero.constructor | src/components/landing/Hero.tsx:24-25 | both modal flags start false |
| HeroSection.Hero.Mount | src/components/landing/Hero.tsx:27-31 | the timer is scheduled exactly when `hasSeenEarlyModal` holds nothing truthy; nothing is written and no modal opens yet |
| HeroSection.Hero.TimerFires | src/components/landing/Hero.tsx:32-35 | the timer opens the timed modal and writes "true" under its key |
| HeroSection.Hero.Unmount | src/components/landing/Hero.tsx:37 | unmounting cancels the timer; no modal opens and nothing is written |
| HeroSection.Hero.OpenEarlyAccess | src/components/landing/Hero.tsx:119-124 | "Get Early Access" opens the early-access modal only |
| HeroSection.Hero.CloseModal | src/components/landing/Hero.tsx:277 | the early-access modal's close handler clears its own flag only |
| HeroSection.Hero.CloseTimedModal | src/components/landing/Hero.tsx:281 | the timed modal's close handler clears its own flag only |
| HeroSection.TwoVisitsAsWritten | src/components/landing/Hero.tsx:27-39 | on empty storage, the first visit opens the timed modal and the second schedules it again |
| HeroSection.LeaveEarly | src/components/landing/Hero.tsx:27-39 | leaving before the timer fires: the modal never opens and storage is unchanged |
| VisionCarousel.Next | src/components/landing/Vision.tsx:30 | the next index is in [0,3): one more, or 0 after the last |
| VisionCarousel.ThreeTicksReturn | src/components/landing/Vision.tsx:30 | three ticks bring the carousel back to the same index |
| VisionCarousel.ExactlyOneActiveDot | src/components/landing/Vision.tsx:86-97 | exactly one dot is active, the one at the current index |
| VisionCarousel.Vision.constructor | src/components/landing/Vision.tsx:26 | the index starts at 0 |
| VisionCarousel.Vision.Tick | src/components/landing/Vision.tsx:28-33 | each interval tick maps i to (i+1) mod 3 and keeps the index in [0,3) |
| VisionCarousel.Vision.SelectDot | src/components/landing/Vision.tsx:89 | clicking dot i sets the index to i |
| VisionCarousel.Vision.Current | src/components/landing/Vision.tsx:74-79 | the statement shown is one of the three, and it is the one whose dot is drawn active |
| VisionCarousel.Vision.Dots | src/components/landing/Vision.tsx:85-98 | three dots are drawn, exactly one active, the one at the current index |
| VisionCarousel.SelectThenTick | src/components/landing/Vision.tsx:28-89 | clicking dot i and then one tick shows (i+1) mod 3 |
| JsValues.Truthy | api/submit-lead.ts:22 | a value is falsy exactly when it is undefined, null, false, 0 or "" |
| JsValues.Or | api/submit-lead.ts:31-33 | `a || b` is a when a is truthy and b otherwise |
| JsValues.Property | api/submit-lead.ts:19 | reading a property gives the object's own field when present and undefined otherwise |
| Browser.Lookup | src/components/landing/Hero.tsx:28 | `getItem` on a storage snapshot: the stored string when the key is present and null otherwise |
| Browser.LocalStorage.GetItem | src/components/landing/ThemeToggle.tsx:18 | `getItem` gives the stored string when the key is present and null otherwise |
| Browser.LocalStorage.SetItem | src/components/landing/ThemeToggle.tsx:29 | `setItem` overwrites one key and leaves every other key as it was |
| Browser.DocumentRoot.ToggleDark | src/components/landing/ThemeToggle.tsx:22-28 | `classList.toggle("dark", force)` leaves the class present exactly when force is true |

## Findings

| source | as written | input that shows it | evidently intended | confidence | as-written member | corrected member |
|---|---|---|---|---|---|---|
| src/components/landing/Hero.tsx:28-34 | the mount effect reads `hasSeenEarlyModal`, but the timer writes `hasSeenEarlyAccessModal` | empty `localStorage`: visit, wait 5 s, reload; the timed modal is scheduled again, and on every later visit | read and write the same key, so the modal is shown once per browser | high (not executed) | HeroSection.ModalReopensAfterBeingSeen | HeroSection.CorrectedModalShownOnce |

The `Hero` class takes the key its timer writes as a constructor argument.
The page as written passes `SeenWrittenKey`. Passing `SeenReadKey` gives the
corrected behaviour, and `CorrectedFirstVisitOnly` proves it over any number
of visits.

## Left out

- The Supabase client, its configuration from environment variables, and `console.error`: the insert is an oracle input and logging is not modelled.
- `JSON.parse` itself: it is a parameter of the handler.
- JavaScript numbers are modelled as integers. `NaN`, `-0` and fractions are not modelled.
- The countdown does not model floating-point rounding (its arithmetic is exact reals), nor the parsing of `"2026-03-01T00:00:00"` in the browser's local time zone: the launch is that instant read as UTC (`LaunchMs`).
- The internals of zod's `.email()` check and of `react-hook-form`: the email check is a predicate given to each form, and `handleSubmit` is modelled as "call `onSubmit` only when the schema accepts".
- Lengths in the schemas are `seq<char>` lengths; JavaScript counts UTF-16 code units.
- `fetch`, `alert`, `setTimeout` and `setInterval` as mechanisms: request outcomes are inputs, timer and interval firings are events, and no clock is kept. The 1000 ms pause after an ok response in the early-access form is folded into `Complete`.
- The browser's own constraint validation of the footer's `type="email"` input is not modelled; `HandleSubscribe` is the handler as called.
- The server side of `/api/submit-early-user` is not part of this model.
- The `displayValue` state of each `CountdownUnit` (src/components/landing/Countdown.tsx:40-44) is not modelled. It copies `value` in an effect, so it lags `value` by one render. `Shown` gives the value after that effect has run.
- Animations, layout and styling, the header's scroll listener and menu, the category tilt effect, and the composition components (page, modal shell, main entry).
