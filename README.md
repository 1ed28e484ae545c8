# Landing-page behaviour of `js/gl0001.js`, modelled in Dafny

`js/gl0001.js` is the script of a landing page for a mobile offer. It
contains six small deterministic rules. Each rule is one Dafny module here:

- **Digit roller** (`DigitRoller`, `digit_roller.dfy`). `startCounterAnimation`
  refills each `.digit-container` of a price tag with 20 glyphs showing
  `i % 10`. It looks for the first glyph at index 10 or above that shows the
  container's `data-target`, translates every glyph, and after 800 ms makes
  every glyph except the target transparent. Containers start right to left,
  200 ms apart. Lengths are counted in slots of 1.2em, so no fractions are
  needed.
- **Reveal tracker** (`RevealTracker`, `reveal_tracker.dfy`). There are ten
  IntersectionObserver callbacks and the `initialize*` functions that
  register elements with them. Each element moves through these steps:
  observed, then (one animation frame later) `is-visible`, then, after a
  fixed delay per observer, `animation-completed`. The elements live in a
  class `Observers` whose methods are tied to a pure `Step` function.
- **Intro schedule** (`IntroSchedule`, `intro_schedule.dfy`).
  `setTimeout(startAnimation, 500)` and the timers that `startAnimation`
  sets. The timers form an explicit queue; timers due at the same time fire
  in the order they were set. `Timeline` is the intended schedule, written
  out as a table, and the queue is shown to produce exactly that schedule.
- **Header scroll reactor** (`HeaderScroll`, `header_scroll.dfy`).
  `handleScroll` sets `hidden` and `scrolled` on the header. It runs once
  when the page is ready and again on every scroll event.
- **Lead-form gate** (`LeadForm`, `lead_form.dfy`). This covers:
  - the terms checkbox, which enables and disables both submit buttons;
  - both DOMContentLoaded handlers, each of which registers a
    `handleSubmit`;
  - the global `buttonPushed` flag and `onIframeLoaded`;
  - `toggleOtherInput`.
- **UUID v4 template** (`Uuid`, `uuid.dfy`). `generateUUIDv4` fills its
  template from a supplied sequence of random nibbles.

`Wrappers` (`wrappers.dfy`) holds the `Option` type.

Notes on the code:
- The step-item observer completes after 1500 ms (`js/gl0001.js:454`).
- Section titles get `is-visible` but never `animation-completed`.
- Only the first DOMContentLoaded handler of the form sets `buttonPushed`.
- The digit roller moves glyph `i` by `-k + (i - k)` slots, so glyph `i`
  comes to rest at `2(i - k)`. The target still lands in the window and no
  other glyph does (`RollAlignsTarget`).
- The observer callbacks test only `isIntersecting` and the element's
  classes. `unobserve` does not remove later entries of the batch being
  processed, so two intersecting entries for one element in one batch
  queue two animation-frame callbacks (see "## Findings"). The model keeps
  this behaviour. The observer hands each callback the entries queued since
  the previous one and queues none for an element it no longer observes, so
  a batch is the entries of elements observed when the callback starts.
- `handleScroll` looks up `main` and `.box-content` once, when the script
  runs (`js/gl0001.js:131-132`). It reads `offsetTop` and `offsetHeight`
  again on every call (`js/gl0001.js:146`). In the model, whether the two
  elements exist is fixed, and each scroll event carries its own geometry.

## Model

| member | source | states |
|---|---|---|
| DigitRoller.Strip | js/gl0001.js:15-31 | a refilled container holds exactly 20 glyphs |
| DigitRoller.TargetIndex | js/gl0001.js:36-40 | the search finds nothing (-1) exactly when the target is not a digit 0..9 (NaN included); otherwise the index is in 10..19 and its glyph shows the target |
| DigitRoller.IsFirstHit | js/gl0001.js:36-38 | what `findIndex` returns: the first index the predicate accepts, or -1 if it accepts none |
| DigitRoller.FirstHitUnique | js/gl0001.js:36-38 | `findIndex` has a single answer |
| DigitRoller.SearchOnStrip | js/gl0001.js:14-38 | on a fresh strip, `findIndex` returns k if and only if k is `TargetIndex(target)`, i.e. 10 + target or -1 |
| DigitRoller.Shift | js/gl0001.js:42-51 | glyph i is moved so that it rests at 2(i - k) slots, and it rests at 0 exactly when it is the target |
| DigitRoller.Rolled | js/gl0001.js:42-51 | the roll gives every glyph its own shift and leaves its digit, its offset and its transparency alone |
| DigitRoller.Faded | js/gl0001.js:54-61 | the hiding timer makes every glyph except the target transparent, leaves the target exactly as it was, and moves nothing |
| DigitRoller.RollDelay | js/gl0001.js:63 | container i of n starts (n - i) * 200 ms after the call, so never sooner than 200 ms |
| DigitRoller.RollAlignsTarget | js/gl0001.js:42-51 | after the roll, glyph i rests at 2(i - k) slots; it rests in the window exactly when i is the target |
| DigitRoller.SettledView | js/gl0001.js:14-61 | for a digit target, the final view has the target glyph opaque at offset 0, and every other glyph transparent and out of the window |
| DigitRoller.Stagger | js/gl0001.js:63 | the rightmost container starts after 200 ms, and each container starts 200 ms after its right-hand neighbour |
| DigitRoller.DigitContainer.Refill | js/gl0001.js:10-31 | the loop leaves the container holding exactly the generated strip |
| DigitRoller.DigitContainer.FindTarget | js/gl0001.js:36-38 | the loop returns the first index at or above 10 whose glyph shows the target, or -1 if there is none |
| DigitRoller.DigitContainer.OnRollTimer | js/gl0001.js:34-53 | the returned index is what `findIndex` returns; when the target is found, every glyph gets its own shift and the hiding timer is set for 800 ms; when it is not found, nothing changes and no timer is set |
| DigitRoller.DigitContainer.OnHideTimer | js/gl0001.js:54-61 | every glyph except the target becomes transparent; the target is untouched |
| DigitRoller.DigitContainer.Animate | js/gl0001.js:6-64 | refill, roll and hide leave a digit target in the settled view, with the hiding 800 ms after the roll; any other target leaves the fresh strip as it is and sets no hiding timer |
| DigitRoller.StartCounterAnimation | js/gl0001.js:2-65 | every container is refilled, and container i gets the roll delay 200 + (n - 1 - i) * 200 |
| RevealTracker.Selector | js/gl0001.js:218-558 | each `initialize*` function queries its own class selector |
| RevealTracker.CompletionDelay | js/gl0001.js:164-545 | only section titles have no completion timer; the delay is 1200 ms for recommend, iphone, testimonial and qa items, and 1500 ms for about, evi, ad panel, mobile ad panel and step items |
| RevealTracker.PresetsHidden | js/gl0001.js:226-558 | the recommend, iphone, evi, testimonial and qa initializers pre-hide their elements with inline styles (lines 230, 311, 354, 511, 554); the other five do not. The element invariant keeps this flag fixed |
| RevealTracker.OnEntry | js/gl0001.js:191-208 | an intersecting entry for an element with neither class queues one animation-frame callback and stops observing it; any other entry changes nothing |
| RevealTracker.DeliverAll | js/gl0001.js:190-209 | `entries.forEach` over a batch changes only observation and the queued frame callbacks of each element, and never removes a queued callback |
| RevealTracker.Batch | js/gl0001.js:188-210 | the batch the browser hands the callback holds exactly the entries of elements observed when it is taken |
| RevealTracker.RunFrames | js/gl0001.js:197-204 | the pending frame callbacks all run: each is counted as a reveal, the element becomes visible, its reveal time is set if unset, and each starts one completion timer due the observer's delay later (none for section titles) |
| RevealTracker.FireDue | js/gl0001.js:201-203 | the element completes exactly when it was complete or one of its timers is due; only the timers not yet due remain; a completion time once set stays |
| RevealTracker.Step | js/gl0001.js:164-560 | registering appends exactly one fresh element; no other event adds or removes elements; only a clock advance moves the clock |
| RevealTracker.InitialOk | js/gl0001.js:164-560 | the empty tracker satisfies the element invariant |
| RevealTracker.StepOk | js/gl0001.js:164-560 | every event keeps the element invariant: an observed element has no reveal, queued or run; `is-visible` exactly when some reveal ran; `animation-completed` only after `is-visible` and exactly the observer's delay after it; the pending timers are one per reveal, all due at that time |
| RevealTracker.RunOk | js/gl0001.js:164-560 | the element invariant holds after any sequence of events |
| RevealTracker.DeliverAllOk | js/gl0001.js:188-208 | a batch of entries, however many it holds for one element, keeps every element consistent |
| RevealTracker.RevealOrdering | js/gl0001.js:164-215 | along any run, an element is visible exactly when some reveal has run; `animation-completed` comes only after `is-visible`, exactly its observer's delay after it, however many reveals ran; a section title never completes |
| RevealTracker.StepMonotone | js/gl0001.js:164-560 | classes are only ever added, an unobserved element is never observed again, and reveal and completion times never change once set |
| RevealTracker.DeliverAllMonotone | js/gl0001.js:188-208 | an entry batch changes no element's classes or times |
| RevealTracker.EntryGuard | js/gl0001.js:191-208 | a batch with one entry queues a reveal if and only if the element is observed, the entry is intersecting, and the element has neither class; otherwise the element is unchanged |
| RevealTracker.CompletionTiming | js/gl0001.js:201-203 | a visible element completes on a clock advance if and only if the clock reaches its reveal time plus its delay |
| RevealTracker.EnterAndLeave | js/gl0001.js:188-208 | two intersecting entries for the same element in one batch reveal it twice in the next frame and start two completion timers, both due at the same time; one entry reveals it once |
| RevealTracker.OnEntryOnce | js/gl0001.js:191-208 | the guard with the observation test added: an entry for an element no longer observed changes nothing |
| RevealTracker.OnceQueuesOnce | js/gl0001.js:188-208 | with that guard, a batch queues at most one reveal per element, and none for an element already unobserved |
| RevealTracker.EnterAndLeaveOnce | js/gl0001.js:188-208 | with that guard, the batch of two entries queues exactly one reveal |
| RevealTracker.Registrations | js/gl0001.js:563-586 | the ten `initialize*` calls produce only fresh, observed elements of the ten categories |
| RevealTracker.Observers.constructor | js/gl0001.js:164-215 | the observers start with no elements |
| RevealTracker.Observers.Initialize | js/gl0001.js:218-558 | `initialize*` appends one fresh observed element per match, in document order |
| RevealTracker.Observers.InitializeAll | js/gl0001.js:563-586 | the ten `initialize*` calls append, in load order, one fresh element per match of each selector, and nothing else |
| RevealTracker.Observers.Callback | js/gl0001.js:188-210 | the callback runs the guard on every entry of the batch taken at its start, as `Step` says |
| RevealTracker.Observers.Offer | js/gl0001.js:191-208 | one entry of a batch matches `Deliver`: the guard does not test whether the element is still observed |
| RevealTracker.Observers.AnimationFrame | js/gl0001.js:197-204 | the queued frame callbacks add `is-visible` and start the completion timers, as `Step` says |
| RevealTracker.Observers.Elapse | js/gl0001.js:201-203 | the timers due on a clock advance fire, as `Step` says |
| IntroSchedule.Timeline | js/gl0001.js:77-127 | the schedule has one stage per present coin container and smartphone, two per price tag (shown, then its counter) and one per coin |
| IntroSchedule.TimelineOrdered | js/gl0001.js:77-127 | every scheduled stage is one of the intro's effects, at its listed time (500, 600, 800, 1800, 2000, 3500 ms), on an element the page has, and the stages are in time order |
| IntroSchedule.TimelineComplete | js/gl0001.js:77-127 | every intro effect on an element the page has appears in the schedule at its listed time |
| IntroSchedule.FinaleListed | js/gl0001.js:101-126 | the price tags, counters and coins fall in order between 1800 and 3500 ms |
| IntroSchedule.OpeningListed | js/gl0001.js:78-99 | the coin container and the smartphones fall in order between 500 and 800 ms |
| IntroSchedule.RemoveMembers | js/gl0001.js:87-99 | removing one element's stages keeps exactly the stages about other elements |
| IntroSchedule.FinaleKeeps | js/gl0001.js:101-126 | no stage from 1800 ms on concerns a smartphone |
| IntroSchedule.MissingSmartphone1 | js/gl0001.js:87-92 | a page without `.smartphone1` has the same schedule, minus that element's stage |
| IntroSchedule.MissingSmartphone2 | js/gl0001.js:94-99 | a page without `.smartphone2` has the same schedule, minus that element's stage |
| IntroSchedule.Insert | js/gl0001.js:88-126 | `setTimeout` adds exactly one timer to the queue |
| IntroSchedule.InsertAt | js/gl0001.js:88-126 | `setTimeout` puts a timer behind every pending timer due no later than it and in front of the next later one; the other timers keep their order |
| IntroSchedule.InsertOrdered | js/gl0001.js:88-126 | queuing a timer keeps the queue in due order and loses no timer |
| IntroSchedule.InsertAllOrdered | js/gl0001.js:88-126 | queuing the timers of one callback keeps the queue in due order and loses no timer |
| IntroSchedule.InsertAllAppend | js/gl0001.js:88-126 | timers set in due order, none before a pending one, are appended |
| IntroSchedule.InsertAllBefore | js/gl0001.js:107-125 | the counter timers (due at 2000 ms) go in front of the coin timer (3500 ms) |
| IntroSchedule.EffectsOf | js/gl0001.js:78-126 | every callback does only intro effects, and the ones that query elements act only on elements the page has |
| IntroSchedule.TimersOf | js/gl0001.js:87-126 | every timer a callback sets is due after it runs; only `startAnimation` and the price callback set timers; the price callback sets one per price tag |
| IntroSchedule.Tick | js/gl0001.js:88-127 | with nothing pending nothing happens; otherwise the first timer fires at its due time, is logged, and is replaced in the queue by the timers its callback sets |
| IntroSchedule.TickKeepsPending | js/gl0001.js:88-127 | the timer that fires is due no later than any pending timer, the clock never runs backwards, and the queue stays ordered with nothing overdue |
| IntroSchedule.DrainQuiet | js/gl0001.js:88-125 | timers whose callbacks set no timers fire in queue order, one per step |
| IntroSchedule.Load | js/gl0001.js:127 | at load the clock is 0, nothing has fired, and the only pending timer is `startAnimation` at 500 ms, a consistent queue |
| IntroSchedule.LoadStarts | js/gl0001.js:77-127 | at 500 ms `startAnimation` fires and sets the smartphone, price and coin timers |
| IntroSchedule.PhonesFire | js/gl0001.js:87-99 | the smartphone timers the page set fire next, in order |
| IntroSchedule.PricesShow | js/gl0001.js:101-113 | at 1800 ms the price callback fires and sets one counter timer per price tag, all ahead of the coin timer |
| IntroSchedule.CountersStart | js/gl0001.js:107-125 | the counters start one by one at 2000 ms, then the coins at 3500 ms, leaving nothing pending |
| IntroSchedule.LoadFiresAll | js/gl0001.js:77-127 | from DOMContentLoaded, the queue fires exactly the intro's timers in their listed order, and ends at 3500 ms with nothing pending |
| IntroSchedule.LogPhones | js/gl0001.js:87-99 | the smartphone timers produce exactly the smartphone stages |
| IntroSchedule.LogClosing | js/gl0001.js:101-126 | the timers from 1800 ms on produce exactly the price, counter and coin stages |
| IntroSchedule.FiredLogIsTimeline | js/gl0001.js:77-127 | the effects of the fired timers, each at its firing time, are exactly the reference schedule |
| IntroSchedule.LoadRunsTimeline | js/gl0001.js:77-127 | the intro produces exactly the reference schedule and then stops: further steps change nothing |
| HeaderScroll.React | js/gl0001.js:133-155 | `hidden` is present if and only if scrollY > 35; when both `main` and `.box-content` exist, `scrolled` is present if and only if scrollY > offsetTop + offsetHeight - 100, with the geometry read at that call; otherwise `scrolled` is left unchanged |
| HeaderScroll.Replay | js/gl0001.js:156-160 | after a sequence of scroll events, `hidden` follows the last offset; without `main` or `.box-content`, `scrolled` is never touched |
| HeaderScroll.ReactIdempotent | js/gl0001.js:133-155 | running the handler again at the same offset changes nothing |
| HeaderScroll.LastScrollWins | js/gl0001.js:146-160 | after any sequence of scroll events, the header shows what the last offset and the geometry read then call for |
| HeaderScroll.UntrackedKeepsScrolled | js/gl0001.js:144-154 | without `main` or `.box-content`, no scroll ever touches `scrolled` |
| HeaderScroll.Header.HandleScroll | js/gl0001.js:133-155 | the handler's class updates match `React` |
| HeaderScroll.Header.Attach | js/gl0001.js:156-161 | the initial check followed by the scroll events leaves the header as the last offset and the geometry read then dictate |
| LeadForm.Initial | js/gl0001.js:593 | before loading, `buttonPushed` is false, nothing has been recorded, and no listener is attached |
| LeadForm.LoadFirst | js/gl0001.js:624-667 | the first DOMContentLoaded handler fills in a version-4 identifier, disables both buttons exactly when the box is unchecked, attaches one change listener and the flagging submit handler, and changes nothing else |
| LeadForm.LoadSecond | js/gl0001.js:669-705 | the second handler attaches one more change listener and the plain submit handler, and changes nothing else |
| LeadForm.Load | js/gl0001.js:624-705 | DOMContentLoaded attaches the flagging handler and then the plain one, and fills in a version-4 identifier; it runs only once |
| LeadForm.IframeLoad | js/gl0001.js:595-599 | a redirect to the landing URL is recorded exactly when `buttonPushed` is set; nothing else changes |
| LeadForm.ToggleOther | js/gl0001.js:609-622 | the "other job" field is required and shown exactly when `__other_option__` is selected; hiding it clears its value, showing it keeps the value; nothing else changes |
| LeadForm.OnChange | js/gl0001.js:640-645 | a change listener disables both buttons exactly when the box is unchecked, shows the error exactly then, and changes nothing else |
| LeadForm.Toggle | js/gl0001.js:640-645 | with no listener attached only the box changes; with one or more, the state is what a single listener leaves |
| LeadForm.OnSubmit | js/gl0001.js:648-663 | unchecked: the click is cancelled and the error shown; checked and valid: the error is hidden, the flagging variant sets `buttonPushed`, and the form is submitted with the flag as it then stands; checked and invalid: the click is cancelled and validity reported; nothing else changes |
| LeadForm.Dispatch | js/gl0001.js:665-704 | the attached handlers only add effects, never clear `buttonPushed`, and change nothing but effects, error and flag |
| LeadForm.OnClick | js/gl0001.js:665-666 | a click on a disabled button changes nothing; otherwise effects are only added, and nothing but effects, error and flag changes |
| LeadForm.Step | js/gl0001.js:593-705 | every page event only adds effects, and never unloads the page or clears `buttonPushed`; DOMContentLoaded always leaves the page loaded |
| LeadForm.LoadInv | js/gl0001.js:624-705 | after loading, the buttons are disabled exactly when the box is unchecked, and both handlers are attached, the flagging one first |
| LeadForm.ChangeGates | js/gl0001.js:640-645 | after a checkbox change, both buttons are disabled exactly when the box is unchecked, and the error shows exactly then; the second listener changes nothing further |
| LeadForm.UncheckedRefused | js/gl0001.js:648-653 | a handler never submits an unchecked form: it cancels the click, shows the error and leaves the flag alone |
| LeadForm.ValidClickSubmits | js/gl0001.js:654-666 | a click on a checked, valid form hides the error, sets `buttonPushed` and submits twice, both times after the flag is set |
| LeadForm.InvalidClickReports | js/gl0001.js:658-662 | a click on a checked, invalid form only cancels the click and reports validity, once per handler |
| LeadForm.UncheckedClickIgnored | js/gl0001.js:636-645 | once loaded, a click with the box unchecked reaches no handler, because both buttons are disabled |
| LeadForm.SubmitFlagged | js/gl0001.js:648-663 | one handler keeps the flag's promise when it is the flagging one, the flag is already set, or it does not submit |
| LeadForm.DispatchFlagged | js/gl0001.js:665-704 | both handlers, the flagging one first, keep the flag's promise |
| LeadForm.IframeFlagged | js/gl0001.js:595-599 | a redirect keeps the flag's promise |
| LeadForm.StepInv | js/gl0001.js:593-705 | every page event keeps the form's invariant |
| LeadForm.RunInv | js/gl0001.js:593-705 | the invariant holds after any sequence of events |
| LeadForm.Gate | js/gl0001.js:593-705 | along any run: once loaded, the buttons are disabled exactly when the box is unchecked and the identifier is a version-4 UUID; every submission happens with `buttonPushed` set; every redirect goes to the landing URL and follows a submission |
| LeadForm.RedirectIffPushed | js/gl0001.js:595-599 | `onIframeLoaded` redirects if and only if a submission has happened |
| LeadForm.Page.constructor | js/gl0001.js:593 | the page starts as served |
| LeadForm.Page.ContentLoaded | js/gl0001.js:624-705 | the two handlers' updates match `Load` |
| LeadForm.Page.ChangeCheckbox | js/gl0001.js:640-645 | the change listeners' loop matches `Toggle` |
| LeadForm.Page.RunChangeListener | js/gl0001.js:640-645 | one change listener's updates match `OnChange` |
| LeadForm.Page.HandleSubmit | js/gl0001.js:648-663 | the handler's three branches match `OnSubmit` |
| LeadForm.Page.ClickButton | js/gl0001.js:665-666 | a click runs the attached handlers in order, or nothing for a disabled button, as `OnClick` says |
| LeadForm.Page.OnIframeLoaded | js/gl0001.js:595-599 | matches `IframeLoad` |
| LeadForm.Page.ToggleOtherInput | js/gl0001.js:609-622 | matches `ToggleOther` |
| Uuid.Template | js/gl0001.js:602 | the template has 36 characters |
| Uuid.TemplateLiteral | js/gl0001.js:602 | the template is `xxxxxxxx-xxxx-4xxx-yxxx-xxxxxxxxxxxx` |
| Uuid.TemplateHoles | js/gl0001.js:602 | the template has 31 placeholders |
| Uuid.Hex | js/gl0001.js:605 | `toString(16)` of a nibble is a lower-case hex digit, and a decimal digit exactly when the value is below 10 |
| Uuid.Digit | js/gl0001.js:603-604 | `x` keeps the nibble; `y` becomes 8 + r % 4, a value 8..11 with the same low two bits |
| Uuid.Substitute | js/gl0001.js:602-606 | replacing placeholders keeps the length |
| Uuid.SubstituteMatches | js/gl0001.js:602-606 | replacing placeholders keeps every fixed character and puts a fitting digit in every placeholder |
| Uuid.SubstituteAt | js/gl0001.js:602-606 | the character at each position is the fixed one, or the digit made from the next unused nibble |
| Uuid.SubstituteExtract | js/gl0001.js:602-606 | any string fitting the template is the substitution of the nibbles read back from it |
| Uuid.Generate | js/gl0001.js:601-607 | the result is a version-4 UUID string |
| Uuid.GenerateFormat | js/gl0001.js:601-607 | the result has length 36, `-` at 8, 13, 18 and 23, `4` at 14, a digit in {8,9,a,b} at 19, and every other character is the hex digit of its nibble, in order |
| Uuid.GenerateOnto | js/gl0001.js:601-607 | every version-4 UUID string is produced by some nibble sequence |
| Uuid.ExtractGenerate | js/gl0001.js:601-607 | reading the nibbles back gives the input, except the `y` nibble, which comes back as 8 + r % 4 |

## Findings

| source | as written | input that shows it | evidently intended | confidence | as-written member | corrected member |
|---|---|---|---|---|---|---|
| js/gl0001.js:188-208 | the callback's guard tests only `isIntersecting` and the two classes; `unobserve` inside the loop does not drop later entries of the same batch | register one recommend item, then deliver the batch `[Entry(0, true), Entry(0, true)]` and run a frame: two reveals run and two completion timers are set | each element is revealed once; the comment at `js/gl0001.js:206` says observation stops as soon as the animation is triggered | not executed | RevealTracker.EnterAndLeave | RevealTracker.OnceQueuesOnce |

The classes and times that result are the same either way: both callbacks
add `is-visible` in the same frame, and both timers are due at the same
time. The rest of the model follows the code as written.
`RevealTracker.EnterAndLeaveOnce` shows the corrected guard on the same batch.

## Left out

- Observer geometry: thresholds and `rootMargin` are not modelled. Whether an
  entry is intersecting is an input of each callback batch.
- `requestAnimationFrame` and `setTimeout` timing: the reveal tracker counts
  pending frame callbacks and due times explicitly, and the intro uses an
  explicit timer queue with integer milliseconds. Browser timer clamping
  and jitter are not modelled.
- The readiness branch (`document.readyState === "complete"` or the `load`
  event) is not modelled: both paths run the same ten `initialize*` calls,
  so `InitializeAll` stands for either.
- Cosmetic style writes are not modelled: flex layout, font, width,
  position, transitions and easing, and the initial `visibility`/`opacity`/
  `transform` that `initialize*` and the DOMContentLoaded handler at
  `js/gl0001.js:70-76` write. The reveal tracker records only whether an
  element was pre-hidden.
- Scroll offsets and element geometry are whole CSS pixels. Fractional
  `scrollY` values are not modelled.
- A page without a `header`, form or button makes the source throw. The
  model takes those elements as present.
- The page's elements are indices or flags, not DOM nodes. Aliasing between
  elements is not modelled.
- `Math.random` is replaced by a supplied nibble sequence.
  `form.checkValidity()` is an input boolean.
- `preventDefault`, `reportValidity`, `form.submit()` and the redirect are
  recorded as effects. The browser's default submission and navigation are
  not modelled.
- `toggleOtherInput` is called from the page's markup (not part of this
  model); it appears here as the `SelectJob` event.
- The intro's `startCounterAnimation` call is recorded as a `StartCounter`
  effect. What it does to the digits is the digit roller's module.
- IntroSchedule.TimelineOrdered: the stage times are in non-decreasing
  order. Effects within one stage share a time and come in document order;
  between stages the times strictly increase.
