# Matiere marketing site: its UI state machines

The site is a single-page marketing website for a carpentry business. Almost all of it is static content, JSX and animation-library calls. This project models the small, deterministic pieces of UI state inside it and proves their behaviour:

- **Enquiry form**. The contact section's validator collects every field error instead of stopping at the first. Its email check is the regular expression `^[^\s@]+@[^\s@]+\.[^\s@]+$`. Editing a field clears that field's error. The status goes `idle → submitting → success → idle`.
- **Testimonial carousel**. Previous and next wrap around the ends, the autoplay tick is `paginate(1)`, and clicking a dot jumps to that testimonial. The direction flag picks which side slides enter and leave from. The desktop mini-cards show a 140-character excerpt.
- **FAQ accordion**. One optional open index and a toggle rule.
- **Scroll spy**. A backward scan over the ordered navigation sections. It picks the last section whose element exists and whose top is at most `scrollY + 120`. With no such section it picks `"home"`.
- **Header**. The "scrolled" flag past 40 pixels, the mobile-menu toggle, closing the menu on navigation, and active-link highlighting.

Modules, one per source component:

| module | file | models |
|---|---|---|
| `Options` | options.dfy | the optional value (element present or absent, no item open) |
| `Text` | text.dfy | JavaScript's `trim` and the white-space set shared with the regex class `\s` |
| `Contact` | contact.dfy | src/components/sections/Contact.tsx |
| `Testimonials` | testimonials.dfy | src/components/sections/Testimonials.tsx |
| `Faq` | faq.dfy | src/components/sections/FAQ.tsx |
| `Nav` | nav.dfy | the `navLinks` list of src/lib/data.ts and `href.replace("#", "")` |
| `ScrollSpy` | scrollspy.dfy | src/hooks/useActiveSection.ts |
| `Header` | header.dfy | src/components/layout/Header.tsx |

How the model is built:

- **Pure core, stateful shells.** Every component's rules are pure functions, and the lemmas are about those functions. Each component's React state is a class whose fields are the `useState` variables. Each handler is a method whose `ensures` ties the new fields to those functions.
- **Form as a state machine.** The form's state is a `FormState` value. The events are an edit, a submit, the simulated delay resolving, and "Send Another Message". `Step` applies one event. `Enabled` says when the page can deliver an event:
  - the form is rendered unless the status is success;
  - the submit button is disabled while submitting;
  - the reset button exists only on success.

  `Run` applies a sequence of events. An event that the current state cannot deliver does not occur.
- **The document as a map.** The document is a `map<string, int>` from the id of each element present to its `offsetTop`. `getElementById` finding nothing is an id that is not a key. The window's `scrollY` is a parameter.
- **Submit in two steps.** `handleSubmit` is split at its `await`:
  - `HandleSubmit` runs validation and, when the data is valid, sets `submitting`;
  - `ResolveSubmission` is the continuation after the delay: it sets `success` and resets the fields.
- **Blank text.** `IsBlank` is "every character is white space". `Text.BlankIffTrimEmpty` proves this equal to `s.trim() === ""`.

Behaviour of the code worth noting:

- Clicking the current dot sets direction −1.
- Toggling the same FAQ item twice restores the state only when it started closed or with that item open. From another open item it ends closed.
- The email pattern accepts a trailing dot after the domain, e.g. `a@b.c.` (`Contact.TrailingDotAccepted`). This is because the characters after the dot may themselves contain dots.
- Nothing ever sets the status `error`, so there is no submission-failure transition and the error banner is unreachable.
- For the steps the code makes (±1), `paginate` equals addition modulo the length (`Testimonials.NextIndexIsModular`). For other steps the two can differ: step 2 from index 2 of 3 gives 0, not 1. For any step the result is still a valid index.
- The header registers its scroll listener at mount but does not call it there, unlike the scroll spy. A page that loads already scrolled keeps `isScrolled` false until the first scroll event. `Header.SiteHeader` has no mount step for this reason.
- `paginate` is memoised with no dependencies, so the autoplay effect is set up once. A manual navigation does not restart the 6-second interval. Timers are outside the model anyway.

## Model

| member | source | states |
|---|---|---|
| `Text.IsWhitespace` | src/components/sections/Contact.tsx:46-56 | defines the white-space code points of ECMAScript (WhiteSpace and LineTerminator), the set both `trim` and `\s` use; `Text.BlankIffTrimEmpty` and `Contact.EmailPatternIsShape` state what follows from it |
| `Text.TrimStart` | src/components/sections/Contact.tsx:46-56 | the leading half of `trim`: the result is a suffix of the input, everything dropped is white space, and it does not start with white space |
| `Text.TrimEnd` | src/components/sections/Contact.tsx:46-56 | the trailing half of `trim`: the result is a prefix of the input, everything dropped is white space, and it does not end with white space |
| `Text.Trim` | src/components/sections/Contact.tsx:46-56 | the result is a slice `s[a..b]` with only white space before `a` and after `b`; it is empty exactly when every character is white space, and otherwise starts and ends with a non-white-space character |
| `Text.BlankIffTrimEmpty` | src/components/sections/Contact.tsx:46-56 | the blank test used by validation is `!s.trim()` |
| `Text.IsBlank` | src/components/sections/Contact.tsx:46-56 | defines the test `!s.trim()` as "every character is white space"; `Text.BlankIffTrimEmpty` proves it equal to `s.trim() === ""` |
| `Contact.MatchesEmailPattern` | src/components/sections/Contact.tsx:49 | defines `/^[^\s@]+@[^\s@]+\.[^\s@]+$/.test(s)` as a split of `s` into a, '@', b, '.', c with a, b and c non-empty runs of `[^\s@]`; `Contact.EmailPatternIsShape`, `Contact.TrailingDotAccepted` and `Contact.NoAtNoMatch` state its properties |
| `Contact.EmailPatternIsShape` | src/components/sections/Contact.tsx:49 | the regex accepts exactly the strings with no white space, exactly one '@', something before it, and a '.' in the domain part that is neither its first nor its last character |
| `Contact.PatternImpliesNotBlank` | src/components/sections/Contact.tsx:47-51 | a string the regex accepts is never blank, so the "required" and "invalid" branches exclude each other |
| `Contact.TrailingDotAccepted` | src/components/sections/Contact.tsx:49 | "a@b.c." matches the pattern |
| `Contact.NoAtNoMatch` | src/components/sections/Contact.tsx:49 | a string without '@' never matches |
| `Contact.Validate` | src/components/sections/Contact.tsx:43-60 | error keys are only required fields, and each error is one of that field's own messages |
| `Contact.ValidateCollectsEveryFieldError` | src/components/sections/Contact.tsx:44-60 | every field's rule is applied independently: a key is present exactly when that field's own rule fails, carrying that rule's message |
| `Contact.OptionalFieldsNeverFlagged` | src/components/sections/Contact.tsx:43-60 | budget, timeframe, message and consent never get an error |
| `Contact.InitialFormDataErrors` | src/components/sections/Contact.tsx:25-60 | validating the initial form gives exactly five errors, one "required" message for each required field, including "Email is required." |
| `Contact.EmailError` | src/components/sections/Contact.tsx:47-51 | email is flagged iff it is blank or misses the pattern; its message is "required" iff it is blank |
| `Contact.PaddedEmailIsInvalid` | src/components/sections/Contact.tsx:47-51 | a non-blank email containing white space (e.g. a leading space) is flagged as invalid, not as missing |
| `Contact.ValidateEmptyIff` | src/components/sections/Contact.tsx:62-63 | validation passes (empty map) iff name, phone and suburb are not blank, the email matches, and a work type is chosen |
| `Contact.NotAnEmailExample` | src/components/sections/Contact.tsx:46-60 | "not-an-email" with the other required fields filled flags only the email, as invalid |
| `Contact.ApplyChange` | src/components/sections/Contact.tsx:72-75 | only the edited field changes; a checkbox stores `checked`, every other input stores `value` |
| `Contact.ClearError` | src/components/sections/Contact.tsx:77-84 | every other field's error is kept unchanged; the edited field's error is removed unless it was the empty string |
| `Contact.Enabled` | src/components/sections/Contact.tsx:207-226 | defines which events the page can deliver: edits and submits only while the form is shown (not on success), no submit while submitting (the button disabled at line 420), the delay's end only while submitting, and the reset button only on success; `Contact.RunPreservesInv` is the property stated over it |
| `Contact.Step` | src/components/sections/Contact.tsx:66-99 | defines each handler's transition: an edit updates one field and clears its error, submit validates and moves to `submitting` only when valid, the delay's end gives `success` with the initial data, and "Send Another Message" returns to `idle`; `Contact.StepPreservesInv`, `Contact.SubmitInvalidKeepsState` and `Contact.ValidSubmissionRoundTrip` state its properties |
| `Contact.StepPreservesInv` | src/components/sections/Contact.tsx:41-99 | every deliverable event keeps the invariant: status never `error`, errors only on required fields with their own messages, no errors outside `idle` |
| `Contact.RunPreservesInv` | src/components/sections/Contact.tsx:41-99 | the invariant holds after any sequence of events |
| `Contact.ErrorBannerUnreachable` | src/components/sections/Contact.tsx:438 | from the initial state no sequence of events reaches status `error`, so the error banner never shows |
| `Contact.SubmitInvalidKeepsState` | src/components/sections/Contact.tsx:89 | submitting invalid data stores the errors and leaves status and form data unchanged |
| `Contact.ValidSubmissionRoundTrip` | src/components/sections/Contact.tsx:87-99 | valid data goes to `submitting` with data kept, resolution goes to `success` with initial data and no errors, and "Send Another Message" returns to the initial state |
| `Contact.ContactForm.constructor` | src/components/sections/Contact.tsx:39-41 | the component starts with the initial data, no errors and status `idle` |
| `Contact.ContactForm.HandleChange` | src/components/sections/Contact.tsx:66-85 | the new state is the edit step of the old one, and the invariant is kept |
| `Contact.ContactForm.ValidateForm` | src/components/sections/Contact.tsx:43-64 | stores the validation errors of the current data and returns true iff the stored map is empty |
| `Contact.ContactForm.HandleSubmit` | src/components/sections/Contact.tsx:87-91 | the new state is the submit step of the old one |
| `Contact.ContactForm.ResolveSubmission` | src/components/sections/Contact.tsx:94-98 | the new state is status `success` with the fields reset |
| `Contact.ContactForm.SendAnotherMessage` | src/components/sections/Contact.tsx:224-230 | the status goes from `success` to `idle` |
| `Testimonials.NextIndex` | src/components/sections/Testimonials.tsx:17-22 | the new index is always in `[0, len)`; stepping below 0 gives `len-1`, reaching `len` gives 0 |
| `Testimonials.NextIndexIsModular` | src/components/sections/Testimonials.tsx:17-22 | for steps ±1 the update is `(index + dir + len) mod len` |
| `Testimonials.PaginateRoundTrip` | src/components/sections/Testimonials.tsx:17-22 | next then previous, and previous then next, return to the starting index |
| `Testimonials.Advance` | src/components/sections/Testimonials.tsx:28-31 | any number of autoplay ticks keeps the index in range |
| `Testimonials.AdvanceWithinCycle` | src/components/sections/Testimonials.tsx:28-31 | `n ≤ len` ticks add `n` to the index, wrapping around at most once |
| `Testimonials.AutoplayCycles` | src/components/sections/Testimonials.tsx:29 | `len` autoplay ticks return to the starting index |
| `Testimonials.DotDirection` | src/components/sections/Testimonials.tsx:140 | a dot click's direction is 1 iff the dot is after the current one, otherwise −1 (also for the current dot) |
| `Testimonials.EnterOffset` | src/components/sections/Testimonials.tsx:35 | defines the incoming slide's `x`, `dir > 0 ? 60 : -60`; `Testimonials.OffsetsMirror` states how it relates to the direction and to the exit offset |
| `Testimonials.ExitOffset` | src/components/sections/Testimonials.tsx:43 | defines the outgoing slide's `x`, `dir < 0 ? 60 : -60`; `Testimonials.OffsetsMirror` states its properties |
| `Testimonials.OffsetsMirror` | src/components/sections/Testimonials.tsx:33-46 | enter offset is +60 iff direction > 0 and exit offset is +60 iff direction < 0; the two are negations for a non-zero direction, and both −60 for direction 0 |
| `Testimonials.Excerpt` | src/components/sections/Testimonials.tsx:187 | a quote of at most 140 characters is unchanged; a longer one becomes its first 140 characters plus "...", so the excerpt has at most 143 characters and starts with the quote's first 140 |
| `Testimonials.MiniCardQuotes` | src/components/sections/Testimonials.tsx:174-187 | the mini-cards show the excerpts of the first three testimonials, each at most 143 characters |
| `Testimonials.Carousel.constructor` | src/components/sections/Testimonials.tsx:11-12 | the carousel starts at index 0 with direction 0 |
| `Testimonials.Carousel.CurrentQuote` | src/components/sections/Testimonials.tsx:99 | the large slide shows one of the testimonials |
| `Testimonials.Carousel.Paginate` | src/components/sections/Testimonials.tsx:14-25 | records the direction and moves the index by the wrap-around rule, keeping it in range |
| `Testimonials.Carousel.Tick` | src/components/sections/Testimonials.tsx:29 | the autoplay step is one forward `paginate` |
| `Testimonials.Carousel.GoTo` | src/components/sections/Testimonials.tsx:139-142 | jumps to the clicked dot and records its direction |
| `Faq.Toggled` | src/components/sections/FAQ.tsx:76-77 | the result is closed iff the toggled item was the open one, otherwise that item is open |
| `Faq.IsOpen` | src/components/sections/FAQ.tsx:124 | defines `isOpen={openIndex === i}`; `Faq.AtMostOneOpen`, `Faq.ToggleThenOther` and `Faq.Accordion.ItemIsOpen` state its properties |
| `Faq.AtMostOneOpen` | src/components/sections/FAQ.tsx:124 | two open items are the same item |
| `Faq.ToggleThenOther` | src/components/sections/FAQ.tsx:77 | toggling `i` then a different `j` leaves `j` open |
| `Faq.ToggleTwice` | src/components/sections/FAQ.tsx:77 | toggling `i` twice restores the state iff it started closed or with `i` open; from another open item it ends closed |
| `Faq.Accordion.constructor` | src/components/sections/FAQ.tsx:73 | every item starts closed |
| `Faq.Accordion.ItemIsOpen` | src/components/sections/FAQ.tsx:124 | an open item is the only open item |
| `Faq.Accordion.HandleToggle` | src/components/sections/FAQ.tsx:76-77 | the open index becomes the toggle of the old one |
| `Nav.FirstIndexOf` | src/hooks/useActiveSection.ts:17 | finds the first occurrence: the character there matches and none before it does |
| `Nav.StripHash` | src/hooks/useActiveSection.ts:17 | an href without '#' is unchanged; otherwise exactly one character is removed |
| `Nav.StripFirstHash` | src/hooks/useActiveSection.ts:17 | `replace("#", "")` removes the first '#' only: for `p` without '#', `p + "#" + q` becomes `p + q` |
| `Nav.StripLeadingHash` | src/components/layout/Header.tsx:23 | `"#" + id` becomes `id`, e.g. "#work" becomes "work" |
| `Nav.LinkTargetId` | src/hooks/useActiveSection.ts:16-17 | the id the scan derives from link `i`'s href is the section id at position `i` |
| `Nav.LinkTargets` | src/lib/data.ts:23-32 | the links' target ids are home, work, services, about, process, testimonials, faq and contact, in that order |
| `Nav.SectionIdsDistinct` | src/lib/data.ts:23-32 | no two links point at the same section |
| `ScrollSpy.Qualifies` | src/hooks/useActiveSection.ts:18-19 | defines the loop's test `el && el.offsetTop <= scrollY`: the element exists and its top is at most the bound; `ScrollSpy.MissingSectionNeverSelected` and `ScrollSpy.ActiveSectionIsLastQualifying` state its use |
| `ScrollSpy.LastQualifying` | src/hooks/useActiveSection.ts:15-23 | returns the highest index whose element exists with its top at most the bound, and none exactly when no section qualifies |
| `ScrollSpy.ActiveSectionFor` | src/hooks/useActiveSection.ts:12-25 | the active section is always a navigation id, and it is "home" or a section that exists within the bound |
| `ScrollSpy.SelectedIndex` | src/hooks/useActiveSection.ts:15-23 | the selected position is −1 or a valid navigation index |
| `ScrollSpy.ActiveSectionIsLastQualifying` | src/hooks/useActiveSection.ts:13-24 | the active section is the last one that exists and whose top is at most `scrollY + 120`; the fallback (position −1, giving "home") is taken exactly when none qualifies |
| `ScrollSpy.MissingSectionNeverSelected` | src/hooks/useActiveSection.ts:18-19 | a section without an element is never selected (other than "home" by default) |
| `ScrollSpy.SelectionMonotonic` | src/hooks/useActiveSection.ts:13-23 | with the layout fixed, a larger `scrollY` never selects an earlier section |
| `ScrollSpy.ThreeSectionScenario` | src/hooks/useActiveSection.ts:13-24 | with home at 0, work at 1000 and services at 2000, scroll 950 gives "work" and scroll 50 gives "home", found by the loop at position 0 and not by the fallback |
| `ScrollSpy.Scan` | src/hooks/useActiveSection.ts:12-25 | the backward loop with its early return yields exactly the active section |
| `ScrollSpy.ActiveSectionTracker.constructor` | src/hooks/useActiveSection.ts:10 | the state starts as "home" |
| `ScrollSpy.ActiveSectionTracker.HandleScroll` | src/hooks/useActiveSection.ts:12-25 | the scroll listener stores the active section for the current scroll and layout |
| `ScrollSpy.ActiveSectionTracker.Mount` | src/hooks/useActiveSection.ts:27-31 | the effect after the first render runs the listener once, so the state becomes the active section for the scroll and layout at mount |
| `Header.IsHighlighted` | src/components/layout/Header.tsx:57 | defines the active-link test `activeSection === link.href.replace("#", "")` used at lines 57, 63 and 121; `Header.AtMostOneHighlighted` and `Header.SpyHighlightsExactlyOne` state its properties |
| `Header.AtMostOneHighlighted` | src/components/layout/Header.tsx:57 | for any active section, at most one navigation link is highlighted |
| `Header.SpyHighlightsExactlyOne` | src/components/layout/Header.tsx:51-63 | with the scroll spy's result, exactly one navigation link is highlighted |
| `Header.ScrollTarget` | src/components/layout/Header.tsx:23-27 | a nav click scrolls to the href's id iff an element with that id exists |
| `Header.SiteHeader.constructor` | src/components/layout/Header.tsx:9-10 | not scrolled, menu closed |
| `Header.SiteHeader.HandleScroll` | src/components/layout/Header.tsx:14-16 | `isScrolled` is true iff `scrollY > 40`; the menu flag is unchanged |
| `Header.SiteHeader.ToggleMenu` | src/components/layout/Header.tsx:85 | the hamburger negates the menu flag |
| `Header.SiteHeader.HandleNavClick` | src/components/layout/Header.tsx:21-29 | returns the scroll target and always closes the mobile menu, whether or not the element exists |

## Left out

- Animation is left out: GSAP, ScrollTrigger, SplitType and anime.js reveals, Framer Motion variants, and the FAQ row's nudge. These are foreign library calls with floating-point timings. Only the carousel's ±60 offsets are modelled.
- Timers are left out: the 1500 ms submission delay, the 6000 ms autoplay interval and the font-load delays. The delay is the separate `ResolveSubmission` step. Autoplay is `Tick`, one `paginate(1)`.
- DOM access is left out: reading `window.scrollY` and `offsetTop`, `getElementById`, `scrollIntoView`, and registering and removing listeners. Scroll position and layout are parameters. `HandleNavClick` returns the id it would scroll to.
- `scrollY` is an integer here. Browsers may report fractional scroll positions.
- `Excerpt` counts Dafny characters (code points), while JavaScript's `length` and `substring` count UTF-16 code units. The two differ only for characters outside the Basic Multilingual Plane.
- React's batching and stale closures are not modelled: each handler runs to completion on the current state.
- Change events carry a field of the form. They are assumed to come from the form's own inputs, with consent as the only checkbox (`WellWired`). An input named outside the form's fields cannot occur.
- Contact.ContactForm.HandleSubmit: it requires the form to be on screen with its button enabled, i.e. status neither `success` nor `submitting`. A second submission while one is pending is therefore not modelled.
- The Work section's modal, Services, About, Hero, Process, page composition and metadata have no logic beyond presentation and are not part of this model.
- The literal content of src/lib/data.ts is reduced to the navigation list and an arbitrary non-empty list of testimonial quotes.
