# Hague Hackers site scripts: a Dafny model

This project models the client-side scripts of the Hague Hackers static
website. The page loader runs when the document is ready. It works out from
the URL which per-page `<head>` fragment to fetch and fetches it into
`#head-placeholder`. After that it fetches five shared HTML partials (header,
hero, cards, contact, footer) into their placeholders. It also imports every
configured component module and calls the module's named init function. At
the end it logs either one success line or one `handleError` report.

Four small components are modelled beside the loader:

- the navigation menu toggle;
- the typewriter animation of the hero heading;
- the supporters ticker, which clones its logos until they fill the screen;
- the contact form, which turns its fields into a `mailto:` link.

Modules, one per source file:

- `Wrappers` (`wrappers.dfy`): `Option` and `Result`.
- `Bootstrap` (`bootstrap.dfy`): `www/js/global.js`.
  - The page is a value `Page(dom, trace)`. The document is a map from
    selector to inner HTML. The trace is the ordered list of observable
    events: fetches, imports, init-function invocations and console lines.
  - Functions give each step's effect (`Inserted`, `PartialLoaded`,
    `PartialsLoaded`, `ComponentsLoaded`, `Initialized`).
  - The class `Browser` performs the same steps by updating its `dom` and
    `trace` fields. Each of its methods is proved to produce exactly what its
    function describes.
  - `fetch` and `import` are parameters: `network` maps a URL to a response
    or a rejection, and `loader` maps a path to a module's exports or a
    rejection.
- `Navigation` (`navigation.dfy`): `www/js/components/navigation.js`. The
  menu button's `aria-expanded` attribute and the `.main-nav` class set are
  the fields of class `Menu`. The two click listeners are its methods.
- `KeyboardEffect` (`keyboard_effect.dfy`): `www/js/components/keyboard-effect.js`.
  The two heading texts, the two character indices, the cursor span and the
  pending timer are the fields of class `Typewriter`. One firing of the
  pending timer is `Tick`. `Typed(n)` is an independent closed form, and it is
  proved equal to `n` firings from the cleared headings.
- `Supporters` (`supporters.dfy`): `www/js/components/supporters.js`. Class
  `Ticker` holds the track's children. `RunSetup` rebuilds the track with
  loops, as the source does. It is proved to build `Track(originals, d)`:
  the originals, then `d` rounds of clones. Separate lemmas say what sits at
  each position of that track.
- `Mailto` (`mailto.dfy`): `www/js/components/mailto.js`. Class
  `ContactForm` holds `window.location.href`. A small `mailto:` URI parser
  (recipient, then `name=value` header fields split at `&`) serves as the
  inverse of the link builder.

The doc comment of `getHeadPartialUrl` (`global.js:49`, and the comment on
line 57) names `includes/index-head.html` as the head partial of
`index.html`. The code on line 57 builds `includes/pages/<name>-head.html`
instead, and it has no `index` fallback for a path ending in `/`. The model
follows the code: `HeadPartialUrlShape` proves that every head URL has the
`includes/pages/<name>-head.html` shape, and that a path ending in `/`
selects `includes/pages/-head.html`.

## Model

| member | source | states |
|---|---|---|
| Bootstrap.LastPathSegment | www/js/global.js:54 | `pathname.split('/').pop()`: the result is a suffix with no `/`, and it is the whole string or follows a `/` |
| Bootstrap.BeforeFirstDot | www/js/global.js:55 | `split('.')[0]`: the result is a prefix with no `.`, and it is the whole string or is followed by a `.` |
| Bootstrap.PageNameCharacterised | www/js/global.js:54-55 | for any `k` just after the last `/`, the page name is the text from `k` to the first following `.` or the end |
| Bootstrap.HeadPartialUrlShape | www/js/global.js:53-58 | the head URL is always `includes/pages/<name>-head.html` with a name free of `/` and `.`; a path ending in `/` gives the empty name (no `index` fallback) |
| Bootstrap.HtmlPageHeadUrl | www/js/global.js:53-58 | the page `<dir>/<name>.html` selects `includes/pages/<name>-head.html` |
| Bootstrap.CheckResponse | www/js/global.js:90-95 | succeeds exactly when `response.ok` and then yields the body text; otherwise fails with the response URL and status text |
| Bootstrap.Fetched | www/js/global.js:77-81 | a fetch reply yields text exactly when the request resolved with an ok response |
| Bootstrap.InsertedChangesOnlyTarget | www/js/global.js:103-110 | an existing target gets the content and nothing else changes; a missing target leaves the document alone and logs one "selector not found" error |
| Bootstrap.PartialLoadedAdds | www/js/global.js:77-81 | one partial load fetches its URL once, imports and reports nothing, fails exactly when the fetch failed, and then leaves the document unchanged; on success only its placeholder gets the fetched text |
| Bootstrap.PartialLoadedError | www/js/global.js:77-81 | a partial load rejects exactly when its fetch failed (rejected or non-ok response), and with that fetch's error |
| Bootstrap.PartialLoadedDom | www/js/global.js:77-81 | a partial load writes the fetched text into its own placeholder when the fetch succeeded and the placeholder exists, and leaves the document unchanged otherwise |
| Bootstrap.PartialsFetchEachOnce | www/js/global.js:66-68 | every partial URL is fetched exactly once, in list order, whatever the replies; no import and no report |
| Bootstrap.PartialsSucceedIff | www/js/global.js:66-68 | the partials succeed exactly when every fetch succeeds; otherwise the error is that of the first failing partial in list order |
| Bootstrap.PartialsFillPlaceholders | www/js/global.js:66-68 | with distinct selectors, every present placeholder whose fetch succeeded holds that fetched text, and every other placeholder is unchanged |
| Bootstrap.ComponentOutcome | www/js/global.js:121-131 | the init function runs exactly when the import resolved and exports that name as a function, and the outcome records whether that call threw and with what; a warning exactly when the import resolved without a function of that name; the import's own rejection reason exactly when it rejected |
| Bootstrap.ComponentEventsViews | www/js/global.js:120-131 | one component entry imports its path once, fetches nothing, reports nothing to the page handlers, and invokes its init function once exactly when the outcome says it ran |
| Bootstrap.ComponentsOneOutcomeEach | www/js/global.js:119-133 | each component entry gets exactly one outcome, determined by its own import, and `loadComponents` itself writes no placeholder |
| Bootstrap.ComponentsImportEachOnce | www/js/global.js:119-133 | every component path is imported exactly once in order; nothing is fetched and nothing reaches `initializePage`'s handlers |
| Bootstrap.ComponentsInvokeWhenCallable | www/js/global.js:119-133 | the init functions invoked are exactly those of the entries whose module exports them as functions, in order |
| Bootstrap.ReportsWhenHeadFails | www/js/global.js:33-44 | a failed head partial produces exactly one report, the `handleError` line with that fetch's error |
| Bootstrap.ReportsWhenHeadLoads | www/js/global.js:34-44 | after a loaded head partial there is exactly one report, and it is the success line exactly when every body partial loaded |
| Bootstrap.BodyAttempts | www/js/global.js:34-40 | after the head, every body partial is fetched once and every component imported once, whatever their results |
| Bootstrap.BodyReportsOnce | www/js/global.js:39-44 | after the head, exactly one report is made, and it is the success line exactly when every body partial loaded |
| Bootstrap.HeadFetchedFirst | www/js/global.js:29-33 | the first event of page initialisation is the fetch of the head partial |
| Bootstrap.HeadFailureStopsEverything | www/js/global.js:33-44 | if the head partial fails, the only events are its fetch and one `handleError` report; the document is unchanged |
| Bootstrap.BodyAttemptedAfterHead | www/js/global.js:32-40 | if the head partial loads, it is in `#head-placeholder` before anything else runs, and then all body partials and components are attempted |
| Bootstrap.ReportsExactlyOnce | www/js/global.js:29-45 | page initialisation reports exactly once: the success line exactly when the head and every body partial loaded, an error report otherwise |
| Bootstrap.HeadPartialUrl | www/js/global.js:53-58 | `getHeadPartialUrl`; `HeadPartialUrlShape` and `HtmlPageHeadUrl` prove the URL's shape and the page name it carries |
| Bootstrap.Inserted | www/js/global.js:103-110 | `insertPartial`; `InsertedChangesOnlyTarget` proves that only an existing target changes, and that a missing one only logs |
| Bootstrap.PartialLoaded | www/js/global.js:77-81 | `loadPartial`; `PartialLoadedError`, `PartialLoadedDom` and `PartialLoadedAdds` prove its error, its document effect and its events |
| Bootstrap.PartialsLoaded | www/js/global.js:66-68 | `loadPartials`; `PartialsFetchEachOnce`, `PartialsSucceedIff` and `PartialsFillPlaceholders` prove its fetches, its result and its placeholders |
| Bootstrap.ComponentsLoaded | www/js/global.js:119-133 | `loadComponents`; `ComponentsOneOutcomeEach`, `ComponentsImportEachOnce` and `ComponentsInvokeWhenCallable` prove its outcomes, imports and invocations |
| Bootstrap.ErrorHandled | www/js/global.js:140-142 | `handleError`; `ReportsWhenHeadFails` and `HeadFailureStopsEverything` prove that it is the one report of a failed head |
| Bootstrap.BodyLoaded | www/js/global.js:34-44 | the continuation after the head; `BodyAttempts` and `BodyReportsOnce` prove what it attempts and that it reports once |
| Bootstrap.Initialized | www/js/global.js:29-45 | `initializePage`; `HeadFetchedFirst`, `BodyAttemptedAfterHead` and `ReportsExactlyOnce` prove its order and its single report |
| Bootstrap.Browser.InsertPartial | www/js/global.js:103-110 | updates the document in place as `Inserted` describes |
| Bootstrap.Browser.LoadPartial | www/js/global.js:77-81 | fetches, checks and inserts in place, returning the error as `PartialLoaded` describes |
| Bootstrap.Browser.LoadPartials | www/js/global.js:66-68 | loads every partial in a loop, keeping the first error, as `PartialsLoaded` describes |
| Bootstrap.Browser.LoadComponent | www/js/global.js:121-131 | one entry's import, then call, warning or logged error, done in place: its outcome is `ComponentOutcome` and it appends exactly that entry's events |
| Bootstrap.Browser.LoadComponents | www/js/global.js:119-133 | imports and initialises every component in a loop, as `ComponentsLoaded` describes |
| Bootstrap.Browser.HandleError | www/js/global.js:140-142 | appends one page-initialisation error report |
| Bootstrap.Browser.InitializePage | www/js/global.js:29-45 | head partial first, then the body partials and components, then one report, as `Initialized` describes for the configuration of lines 11-23 |
| Bootstrap.Browser.InitializeWith | www/js/global.js:29-45 | the same sequence of steps for any configuration table |
| Navigation.SetupNavigation | www/js/components/navigation.js:2-20 | the toggle listener is registered exactly when the menu button exists; the link listener exactly when both the button and the list exist; setup throws otherwise |
| Navigation.Toggled | www/js/components/navigation.js:7-11 | `aria-expanded` becomes "false" exactly when it was "true" and "true" otherwise; `active` flips; no other class changes; consistency is kept |
| Navigation.LinkClicked | www/js/components/navigation.js:14-19 | a click on an `A` collapses the menu and removes `active`; any other target changes nothing; consistency is kept |
| Navigation.ToggleTwiceRestores | www/js/components/navigation.js:7-11 | two toggles restore the class set and the expanded state |
| Navigation.LinkClickIdempotent | www/js/components/navigation.js:14-19 | a second link click changes nothing, and after one the menu is collapsed and consistent |
| Navigation.Menu.constructor | www/js/components/navigation.js:2-6 | records which listeners setup registered over the current menu state |
| Navigation.Menu.OnToggleClick | www/js/components/navigation.js:7-11 | updates the menu in place as `Toggled` describes when the listener is registered |
| Navigation.Menu.OnNavListClick | www/js/components/navigation.js:14-19 | updates the menu in place as `LinkClicked` describes when the listener is registered |
| KeyboardEffect.Blink | www/js/components/keyboard-effect.js:48-50 | "visible" becomes "hidden", and every other value, the unset one included, becomes "visible" |
| KeyboardEffect.Step | www/js/components/keyboard-effect.js:16-51 | keeps the invariant; each firing appends at most the next character of h1 or of h2, and a present cursor blinks |
| KeyboardEffect.Setup | www/js/components/keyboard-effect.js:53-56 | clears both headings and types the first h1 character synchronously, which is the first firing from the cleared state |
| KeyboardEffect.Run | www/js/components/keyboard-effect.js:16-51 | any number of firings keeps the invariant |
| KeyboardEffect.RunMatchesTyped | www/js/components/keyboard-effect.js:16-51 | `n` firings from the cleared headings give exactly `Typed(n)`: h1 first, then h2, then the cursor alternating |
| KeyboardEffect.TypingCompletes | www/js/components/keyboard-effect.js:7-8 | after as many firings as there are characters, the headings read exactly "HAGUE HACKERS" and "Making the digital world safer through education", still without cursor |
| KeyboardEffect.CursorAppearsOnceAfterTyping | www/js/components/keyboard-effect.js:36-50 | the cursor exists exactly after the firing that follows the last h2 character, only on the full h2, starts unset and then alternates "visible"/"hidden" |
| KeyboardEffect.H2StartsAfterH1 | www/js/components/keyboard-effect.js:22-23 | no h2 character is typed before h1 is complete |
| KeyboardEffect.AfterTypeH1 | www/js/components/keyboard-effect.js:16-25 | `typeH1`; `StepTypingH1` and `StepH1ToH2` prove that it types the next h1 character or hands over to `typeH2` |
| KeyboardEffect.AfterTypeH2 | www/js/components/keyboard-effect.js:30-39 | `typeH2`; `StepTypingH2` and `StepStartsCursor` prove that it types the next h2 character or starts the cursor |
| KeyboardEffect.AfterCursorStart | www/js/components/keyboard-effect.js:44-51 | `startCursorBlinking`; `StepStartsCursor` and `CursorAppearsOnceAfterTyping` prove that the cursor appears once, unset, on the full h2 |
| KeyboardEffect.AfterBlink | www/js/components/keyboard-effect.js:48-50 | one interval tick; `Step`'s contract and `StepBlinks` prove that a present cursor blinks as `Blink` says |
| KeyboardEffect.Typewriter.constructor | www/js/components/keyboard-effect.js:53-56 | the headings after setup are `Setup` |
| KeyboardEffect.Typewriter.TypeH1 | www/js/components/keyboard-effect.js:16-25 | types one h1 character in place or hands over to `typeH2` |
| KeyboardEffect.Typewriter.TypeH2 | www/js/components/keyboard-effect.js:30-39 | types one h2 character in place or starts the cursor |
| KeyboardEffect.Typewriter.StartCursorBlinking | www/js/components/keyboard-effect.js:44-51 | appends the cursor with unset visibility and arms the blink interval |
| KeyboardEffect.Typewriter.BlinkTick | www/js/components/keyboard-effect.js:48-50 | flips the cursor's visibility in place |
| KeyboardEffect.Typewriter.Tick | www/js/components/keyboard-effect.js:16-51 | the pending timer fires, as `Step` describes |
| Supporters.NumDuplicates | www/js/components/supporters.js:23 | `ceil(screen / total) + 1` is at least 1, the clones cover the screen plus one extra round, and one round fewer than that would not cover the screen |
| Supporters.CeilDiv | www/js/components/supporters.js:23 | the least `q` with `q * b >= a` |
| Supporters.TrackAt | www/js/components/supporters.js:9-31 | the track has `n * (d + 1)` children; position `n * r + p` holds item `p`, a clone exactly from round 1 on |
| Supporters.TrackAtMod | www/js/components/supporters.js:9-31 | position `k` holds original item `k mod n`, a clone exactly when `k >= n` |
| Supporters.TrackStartsWithOriginals | www/js/components/supporters.js:13-15 | the track starts with exactly the originals, in page order |
| Supporters.Track | www/js/components/supporters.js:9-31 | the track `runSetup` builds; `TrackAt`, `TrackAtMod` and `TrackStartsWithOriginals` prove what sits at each position |
| Supporters.Ticker.constructor | www/js/components/supporters.js:3-4 | captures the original items once |
| Supporters.Ticker.RunSetup | www/js/components/supporters.js:7-32 | with originals of positive width, rebuilds the track in place as `Track(originals, NumDuplicates(...))`; with zero-width originals on a zero-width window, leaves only the originals (the NaN count); with none, leaves it cleared and fails |
| Supporters.SetupSupporters | www/js/components/supporters.js:2-39 | the first run produces the same track as `RunSetup`, in each of its cases; the ticker captured the page's items |
| Mailto.MailtoLink | www/js/components/mailto.js:13-16 | the link starts with `LinkPrefix`, that is `mailto:`, the recipient `contact@haguehackers.nl` and `?subject=` |
| Mailto.ParseMailtoOfTwoFields | www/js/components/mailto.js:16 | a URI `mailto:to?n1=v1&n2=v2` reads back as its recipient and its two fields in order, when no separator occurs inside the parts |
| Mailto.MailtoLinkParses | www/js/components/mailto.js:13-16 | when the encoder never emits `&`, the link parses to the fixed recipient with exactly two header fields, `subject` then `body`, holding the encoded subject and body |
| Mailto.MailtoLinkRoundTrip | www/js/components/mailto.js:13-16 | decoding the parsed fields gives back the fixed subject and the body `Name: ...\nEmail: ...\nMessage: ...` built from the form fields |
| Mailto.BodyText | www/js/components/mailto.js:15 | the unencoded body `Name: ...\nEmail: ...\nMessage: ...`; `MailtoLinkRoundTrip` proves that decoding the link's `body` field gives it back |
| Mailto.ContactForm.constructor | www/js/components/mailto.js:2-4 | the submit handler is registered exactly when the form exists; otherwise one warning is logged |
| Mailto.ContactForm.Submit | www/js/components/mailto.js:5-20 | with the handler registered, the default is prevented and `location.href` becomes the mailto link; without it nothing happens |

## Left out

- `fetch`, `import`, `response.text()`, `window.innerWidth`, `offsetWidth` and `encodeURIComponent` are not modelled; they are parameters: `network`, `loader`, `itemWidth`/`screenWidth` and `encode`. `response.text()` is assumed always to resolve to the response's `text`.
- `Promise.all` concurrency is not modelled. The model loads the body partials in list order, then the components, then makes the final report. In the code the component imports run concurrently with the partial fetches, so no order is claimed between partial events and component events.
- When a body partial fails, `handleError` runs as soon as `Promise.all` rejects, which may be before the other loads settle. The model puts this report after all loads, and it reports the first failure in list order rather than the first to settle in time.
- Console output is modelled as structured `Message` values, not as formatted text.
- The DOM is a map from selector to inner HTML. There is no HTML parsing and no selector matching.
- `Bootstrap.PartialsFillPlaceholders`: requires distinct selectors. With a repeated selector, concurrent loads race for the same element, and the winner is decided by timing that the model does not represent.
- The `DOMContentLoaded` listener registration (global.js:5) and the unused `setupNavigation` import (global.js:3) are not modelled. Neither are the page scripts `www/js/pages/index.js` and `contact.js`: they are not part of this model.
- Navigation: a missing `.main-nav` is not modelled; the model assumes the nav exists. With a missing `.main-nav` the listeners would throw when run. Event dispatch is reduced to calling the listener with the target's tag name.
- Typewriter: the random 40–80 ms delays and the 500 ms interval are not modelled, because only their order matters. The cursor span is a separate `Cursor` field, not a child node inside h2's text. A missing `.hero-content`, `h1` or `h2` (which makes setup throw) is not modelled.
- Supporters: a missing `.supporters-track` is not modelled. In the source `supportersTrack.innerHTML = ''` (supporters.js:10) then throws a TypeError before anything is appended. Widths are whole numbers. Node identity, meaning that `appendChild` moves the original elements, is modelled as values. The `resize` listener is shown only by the fact that `RunSetup` may be called again.
- Supporters.Ticker.RunSetup: excludes items present with `itemWidth == 0` and `screenWidth > 0`. In the source `screenWidth / 0` is `Infinity`, so `numDuplicates` is `Infinity` and the loop at supporters.js:26 never ends, appending clones forever. A non-terminating run is not modelled. The case `itemWidth == 0` with `screenWidth == 0` is modelled: the count is NaN, the loop test is false at once, and only the originals remain.
- Supporters.SetupSupporters: excludes the same non-terminating case as `RunSetup`.
- Bootstrap.ComponentsOneOutcomeEach: an invoked init function is modelled only as an `Invoke` event that may throw. Its own effects on the document are not modelled. For example, `setupKeyboardEffect` clears the hero headings (keyboard-effect.js:54-55) and `setupSupporters` clears the track (supporters.js:10). The lemma's claim that the document is unchanged is about `loadComponents` itself.
- Mailto: the reading of the `#name`, `#email` and `#message` fields is not modelled. The values are parameters. A missing field, which would make the handler throw, is not modelled either. Percent-encoding is the abstract `encode`. The round-trip lemma assumes a decoder that inverts it and an encoding that never emits `&`, as `encodeURIComponent` guarantees.
