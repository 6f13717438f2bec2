# CursorFlow guided-tour playback, modelled in Dafny

This project models the guided-tour player of the site, `CursorFlow`. A
recording is a list of interactions, each with an element descriptor, the
page it was recorded on and a page fingerprint. Playback steps through the
recording:

- It finds the recorded element on the live page.
- It moves an animated cursor to the element and puts a pulsing highlight
  around it.
- It waits for the user's click on that element, then advances.

The playback state (playing flag, step, session id) travels across page
loads in session storage. A "Start Guide" / "Stop Guide" button drives the
whole flow. A page matcher scores how closely the live page resembles a
recorded step. It compares URLs and paths segment by segment, and compares
the lists of headings, navigation items and paragraph snippets. A
fingerprint also lists the page's form controls, but the comparison never
reads that list. The model also covers the focus statistics of the
purposeful-use pages: the focus score and the per-application tally of
context switches.

## Modules

- `Wrappers` is `Option`.
- `JsString` holds the JavaScript string operations the code relies on:
  `startsWith`, `indexOf`, `includes`, `substring`, `trim`, `split`, `join`.
- `Dom` models a document: its elements in document order, an oracle for
  `querySelectorAll` (`None` when the selector throws), and one for
  `elementsFromPoint`.
- `Recordings` holds the recorded data shapes.
- `Locator` is the six-strategy element lookup. It has two variants:
  - `Playback` is the copy in `public/cursor-flow.js`.
  - `Library` is the identical copies in `public/cursor-flow-utils.js` and
    `public/cursor-flow-helpers.js`.
- `PageMatcher` covers `isIdSegment`, `comparePaths`, `compareArrays`,
  `compareFingerprints`, `getPageFingerprint`, `matchPageToStep` and
  `isNavigationOnPath`.
- `SessionStore` is the `StateManager` over a storage map that may be
  unavailable.
- `Overlay` covers the UI helpers: singleton DOM nodes by id, cursor and
  highlight geometry, the cursor caption, and notifications with their
  option defaults.
- `Navigation` is the navigation watcher: router events, the mutation
  observer and the patched `pushState`.
- `FlowController` is the controller closure of `public/cursor-flow.js`. It
  appears in two forms:
  - Pure transition functions over a `Flow` state, with the lemmas.
  - A `CursorFlow` class whose methods perform each handler. Each method is
    proved equal to the matching transition function.
- `Focus` covers the focus score and the application tally.

Three behaviours of the code are easy to misread:

- `compareArrays` (`public/cursor-flow-helpers.js:309-339`) returns the
  exact-match ratio over the shorter length. Only when that ratio is below
  0.5 does it return 0.7 times the partial-match ratio instead. Substring
  matches are never mixed into the exact ratio.
- `matchPageToStep` accepts a fingerprint score strictly greater than 0.7
  (`public/cursor-flow-helpers.js:248`); a score of exactly 0.7 is rejected.
- On a page mismatch, `playNextStep` in `public/cursor-flow.js:636-668` does
  not consult the page matcher. It shows the alert and stops at that step.

Scores are exact rationals (`real`), not IEEE doubles. JavaScript `||` is
modelled with its truthiness: an empty string counts as absent, so a session
id of `""` is no session and a notification id of `""` falls back to the
shared default id.

## Model

| member | source | states |
|---|---|---|
| JsString.IndexOfFrom | public/cursor-flow-helpers.js:38 | the offset found is the first occurrence at or after the start; none means no occurrence there |
| JsString.IncludesIff | public/cursor-flow-helpers.js:38 | `includes` holds exactly when some position holds an occurrence |
| JsString.Trim | public/cursor-flow.js:489 | the result is a slice of the input with only white space before and after it in the input, and it neither starts nor ends with white space: surrounding white space, and nothing else, is removed |
| JsString.TrimStart | public/cursor-flow.js:489 | the result is a suffix of the input, every character dropped before it is white space, and it does not start with white space |
| JsString.TrimEnd | public/cursor-flow.js:489 | the result is a prefix of the input, every character dropped after it is white space, and it does not end with white space |
| JsString.TrimIdempotent | public/cursor-flow.js:489 | trimming twice is trimming once |
| JsString.SplitOnFirstSeparator | public/cursor-flow-helpers.js:352-353 | `split` cuts at the first separator and splits the rest |
| Dom.FirstIndexFrom | public/cursor-flow-helpers.js:19-22 | the index is the first element satisfying the test; none means no element does |
| Dom.FirstMatchNone | public/cursor-flow-helpers.js:19-22 | a first-match lookup fails exactly when no element passes |
| Dom.Scan | public/cursor-flow-helpers.js:30-34 | the loop over a node list returns the first node passing the test |
| Dom.Filter | public/cursor-flow-helpers.js:76 | `getElementsByTagName` keeps exactly the nodes passing the test, and no more nodes than the document has |
| Dom.FilterFirstMatch | public/cursor-flow-helpers.js:76-81 | filtering keeps document order: the first kept node passing a second test is the first node of the whole list passing both |
| Dom.FirstMatchCons | public/cursor-flow-helpers.js:77-81 | the first match in a list headed by `x` is `x` when it passes, and otherwise the first match in the rest |
| Dom.ByTagNameFirstMatch | public/cursor-flow.js:477-484 | searching one tag's elements finds the first node of the document that has that tag and passes the test |
| Locator.QuerySelectorPatched | public/cursor-flow-helpers.js:119-139 | the patched `querySelector` rejects the query when the `:contains` probe throws |
| Locator.TryId | public/cursor-flow-helpers.js:19-22 | the id strategy's result equals its specification |
| Locator.TryLongLink | public/cursor-flow-helpers.js:25-42 | the long-link strategy's result equals its specification |
| Locator.TryPath | public/cursor-flow-helpers.js:45-60 | the DOM-path strategy's result equals its specification |
| Locator.TryCss | public/cursor-flow-helpers.js:63-73 | the CSS-selector strategy's result equals its specification |
| Locator.TryTagText | public/cursor-flow.js:477-495 | the tag/text strategy's result equals its specification (trimmed comparison in playback) |
| Locator.TryPoint | public/cursor-flow.js:498-519 | the point strategy's result equals its specification |
| Locator.FindElementFromInteraction | public/cursor-flow.js:373-523 | the lookup returns what the six strategies, tried in order, give |
| Locator.IdLookupWins | public/cursor-flow-helpers.js:19-22 | a non-empty id present on the page always wins, with its first holder |
| Locator.LongLinkPrefixWins | public/cursor-flow-helpers.js:25-33 | for a link with text over 30 characters, the first link starting with the first 30 characters wins |
| Locator.LongLinkSubstringWins | public/cursor-flow-helpers.js:35-41 | with no prefix hit, the first link containing characters 5 to 25 wins |
| Locator.TagTextExactWins | public/cursor-flow.js:477-484 | the first same-tag element whose trimmed text equals the trimmed recorded text wins |
| Locator.PartialOnlyForLinksAndButtons | public/cursor-flow.js:486-495 | the 20-character partial match is tried only for links and buttons |
| Locator.PointPrefersClickable | public/cursor-flow-helpers.js:95-113 | at the recorded centre, the topmost clickable element is chosen |
| Locator.PointFallsBackToTop | public/cursor-flow-helpers.js:95-113 | with no clickable element, the topmost element is chosen |
| Locator.NotFoundIffAllFail | public/cursor-flow-helpers.js:14-114 | the lookup fails exactly when every strategy fails |
| Locator.PlaybackPointNeedsLongText | public/cursor-flow.js:498 | in playback, the point strategy needs recorded text over 30 characters |
| Locator.VariantsAgree | public/cursor-flow.js:373-523 | both copies agree on trimmed text when the point guard is the same |
| Locator.CssStepNeedsProbe | public/cursor-flow-helpers.js:119-139 | when the `:contains` probe throws, the CSS strategy never finds anything |
| Locator.ShouldWaitForContent | public/cursor-flow-helpers.js:159-165 | wait exactly when the container is missing on a `/writing` path |
| Locator.IdeasIsWriting | public/cursor-flow-helpers.js:159-165 | an ideas path is a writing path |
| Locator.IsElementVisible | public/cursor-flow-helpers.js:144-154 | visible exactly when the element is present, its style is not `display: none`, `visibility: hidden` or opacity `0`, and its box has positive width and height |
| PageMatcher.IsIdSegment | public/cursor-flow-helpers.js:378-389 | a segment is an id exactly when it is all digits, a lower-case hex/dash run of 8 or more, or lower-case letters and digits, a dash, then at least one more letter, digit or dash |
| PageMatcher.SlugIff | public/cursor-flow-helpers.js:386 | the slug test exactly characterises the slug pattern |
| PageMatcher.WordsAreNotIds | public/cursor-flow-helpers.js:378-389 | plain words are not id segments |
| PageMatcher.SlugsAreIds | public/cursor-flow-helpers.js:378-389 | numeric, hexadecimal and slug ids are id segments |
| PageMatcher.DigitsAreId | public/cursor-flow-helpers.js:382 | a non-empty run of digits is an id |
| PageMatcher.HexIsId | public/cursor-flow-helpers.js:384 | eight or more hex digits and hyphens form an id |
| PageMatcher.MalformedSlugs | public/cursor-flow-helpers.js:386 | a trailing or leading dash, or upper case, is not a slug id |
| PageMatcher.CreditSum | public/cursor-flow-helpers.js:361-370 | the segment credit lies between 0 and the shorter segment count |
| PageMatcher.PathSimilarityBounds | public/cursor-flow-helpers.js:344-373 | path similarity lies in [0, 1] and is 1 for equal paths |
| PageMatcher.PathSimilaritySymmetric | public/cursor-flow-helpers.js:344-373 | path similarity is symmetric |
| PageMatcher.SiblingIdPaths | public/cursor-flow-helpers.js:344-373 | two pages of one section whose last segments are different ids (as two blog posts) score 0.9: 1 for the shared section, 0.8 for the id pair, over two segments |
| PageMatcher.UnrelatedPaths | public/cursor-flow-helpers.js:344-373 | a two-segment path against a one-segment path whose first segments differ and are not both ids scores 0 |
| PageMatcher.ComparePaths | public/cursor-flow-helpers.js:344-373 | the loop computes the path similarity |
| PageMatcher.ExactHits | public/cursor-flow-helpers.js:314-322 | the exact-hit count is at most the first list's length |
| PageMatcher.PartialHits | public/cursor-flow-helpers.js:324-336 | the partial-hit count is at most the first list's length |
| PageMatcher.ArraySimilarityNonNegative | public/cursor-flow-helpers.js:309-339 | array similarity is never negative |
| PageMatcher.ArraySimilarityAtMostOne | public/cursor-flow-helpers.js:309-339 | array similarity is at most 1 when the first list is no longer than the second |
| PageMatcher.ArraySimilarityCanExceedOne | public/cursor-flow-helpers.js:307 | a longer first list with repeats scores 2, above the documented range |
| PageMatcher.ArraySimilaritySelf | public/cursor-flow-helpers.js:309-339 | a non-empty list compared with itself scores 1 |
| PageMatcher.CountExact | public/cursor-flow-helpers.js:314-322 | the exact pass counts the elements of the first list that occur in the second |
| PageMatcher.CountPartial | public/cursor-flow-helpers.js:324-336 | the partial pass credits 0.7 for every element of the first list related by substring to some element of the second |
| PageMatcher.CompareArrays | public/cursor-flow-helpers.js:309-339 | the nested loops compute the array similarity |
| PageMatcher.FingerprintSelf | public/cursor-flow-helpers.js:266-304 | a fingerprint compared with itself scores 1 |
| PageMatcher.FingerprintBounds | public/cursor-flow-helpers.js:266-304 | the fingerprint score is at least 0, and at most 1 when the current lists are no longer than the recorded ones |
| PageMatcher.ListCreditBounds | public/cursor-flow-helpers.js:280-300 | each list's credit lies between 0 and its weight |
| PageMatcher.UrlScore | public/cursor-flow-helpers.js:272-278 | URL credit: 0.4 for equal URLs, 0.3 for paths more than 0.7 similar |
| PageMatcher.ListScore | public/cursor-flow-helpers.js:280-300 | one labelled list's credit and weight |
| PageMatcher.CompareFingerprints | public/cursor-flow-helpers.js:266-304 | the method computes the weighted fingerprint similarity |
| PageMatcher.TrimmedTextsExactly | public/cursor-flow-helpers.js:176-185 | every non-empty heading or navigation text appears trimmed in the list, and every entry is some non-empty text trimmed |
| PageMatcher.SnippetsShape | public/cursor-flow-helpers.js:188-193 | every content snippet is over 20 and at most 50 characters long and is the first 50 characters of some long paragraph's trimmed text; every long paragraph contributes its snippet |
| PageMatcher.SnippetLength | public/cursor-flow-helpers.js:189-190 | a paragraph whose trimmed text is over 20 characters gives a snippet over 20 and at most 50 characters long |
| PageMatcher.FormKeysExactly | public/cursor-flow-helpers.js:196-201 | every control with an id, name or placeholder contributes its key, and every key is that of such a control |
| PageMatcher.KeptMapHas | public/cursor-flow-helpers.js:176-201 | in a `forEach` that pushes `f(x)` for the kept matches, every kept match contributes its value |
| PageMatcher.KeptMapSource | public/cursor-flow-helpers.js:176-201 | every entry such a loop pushes is the value of some kept match |
| PageMatcher.KeptMapAppend | public/cursor-flow-helpers.js:176-201 | the entries keep the matches' order: the list for a concatenation of matches is the concatenation of the lists |
| PageMatcher.CollectTexts | public/cursor-flow-helpers.js:176-185 | the heading and navigation loops keep the non-empty texts, trimmed, in page order |
| PageMatcher.CollectSnippets | public/cursor-flow-helpers.js:188-193 | the paragraph loop keeps the texts longer than 20 characters after trimming, cut to 50 |
| PageMatcher.CollectFormKeys | public/cursor-flow-helpers.js:196-201 | the form loop keeps the controls with an id, name or placeholder, keyed by the first of those present |
| PageMatcher.GetPageFingerprint | public/cursor-flow-helpers.js:171-212 | the loops build the fingerprint from the page's texts and controls |
| PageMatcher.PageMatch | public/cursor-flow-helpers.js:218-261 | a match is -1 or a step recorded on this path or passing the fuzzy test |
| PageMatcher.PageMatchExactFirst | public/cursor-flow-helpers.js:226-232 | the first step on exactly this path wins |
| PageMatcher.PageMatchFuzzyFirst | public/cursor-flow-helpers.js:234-258 | with no exact step, the first step passing the fuzzy test wins |
| PageMatcher.PageMatchNone | public/cursor-flow-helpers.js:218-261 | -1 exactly when there is no recording or no step passes either test |
| PageMatcher.MatchPageToStep | public/cursor-flow-helpers.js:218-261 | the two passes compute the page match |
| PageMatcher.IsNavigationOnPath | public/cursor-flow-helpers.js:458-470 | true exactly when some step from the current one on was recorded on this path |
| PageMatcher.CheckNavigationOnPath | public/cursor-flow-helpers.js:458-470 | the loop computes that test |
| SessionStore.AfterSave | public/cursor-flow-helpers.js:478-490 | saving stores the state under its key and leaves the other keys alone; unavailable storage is untouched |
| SessionStore.AfterClear | public/cursor-flow-helpers.js:510-516 | clearing removes only the state key |
| SessionStore.Restored | public/cursor-flow-helpers.js:495-505 | restore yields the stored state exactly when storage works and holds well-formed JSON under the key |
| SessionStore.SaveRestoreRoundTrip | public/cursor-flow-helpers.js:478-505 | restoring after a save gives back the saved state |
| SessionStore.SaveOverwrites | public/cursor-flow-helpers.js:478-490 | the last save wins |
| SessionStore.ClearForgets | public/cursor-flow-helpers.js:510-516 | nothing is restored after a clear |
| SessionStore.UnavailableSwallows | public/cursor-flow-helpers.js:478-516 | storage errors are swallowed: save and clear change nothing, and restore gives nothing |
| SessionStore.SessionStorage.constructor | public/cursor-flow-helpers.js:476-516 | an empty or pre-filled store |
| SessionStore.SessionStorage.Save | public/cursor-flow-helpers.js:478-490 | the new entries are the specified save |
| SessionStore.SessionStorage.Restore | public/cursor-flow-helpers.js:495-505 | the result is the specified restore |
| SessionStore.SessionStorage.Clear | public/cursor-flow-helpers.js:510-516 | the new entries are the specified clear |
| Overlay.RemoveFirst | public/cursor-flow-ui.js:17-20 | removing by id drops exactly one node with that id, if any |
| Overlay.ReplaceKeepsOne | public/cursor-flow-ui.js:17-20 | re-creating a singleton leaves exactly one node with its id, appended last, and other counts unchanged |
| Overlay.RepeatedReplace | public/cursor-flow-ui.js:15-58 | creating the same singleton any number of times still leaves one |
| Overlay.AddOnceKeepsOne | public/cursor-flow-ui.js:148-159 | the style sheet is added once and adding again changes nothing |
| Overlay.HighlightBox | public/cursor-flow-ui.js:210-224 | the highlight extends 4 pixels beyond the element on every side |
| Overlay.PlaybackHighlightBox | public/cursor-flow.js:543-546 | the playback copy extends 4 pixels to the left and top only |
| Overlay.PlaybackHighlightIsLopsided | public/cursor-flow.js:543-546 | the playback highlight has no right or bottom margin, so it differs from the library highlight |
| Overlay.CornerPoint | public/cursor-flow-ui.js:167-184 | the cursor goes to the element's bottom-right corner |
| Overlay.CentrePoint | public/cursor-flow.js:565-577 | the playback cursor goes to the element's centre |
| Overlay.CaptionLabel | public/cursor-flow-ui.js:189-205 | the caption is "this element" for empty text, else the text cut to 25 characters plus "..."; never over 28 characters |
| Overlay.CursorCaption | public/cursor-flow-ui.js:189-205 | no caption without page info; external pages show the URL, others the path |
| Overlay.ExternalExamples | public/cursor-flow-ui.js:200 | `/writing` is internal; machine-learning and absolute URLs are external |
| Overlay.Merge | public/cursor-flow-ui.js:272-280 | each absent option takes its default: empty title and message, `info`, no buttons, 4000 ms |
| Overlay.MergeDefaults | public/cursor-flow-ui.js:272-280 | no options gives the defaults, and merging is idempotent |
| Overlay.NotificationNodeId | public/cursor-flow-ui.js:283-295 | a non-empty custom id names the node; an absent or empty one leaves the shared id `cursor-flow-notification` |
| Overlay.DefaultNotificationUnique | public/cursor-flow-ui.js:283-295 | a default-id notification replaces the previous one |
| Overlay.CustomIdEscapesRemoval | public/cursor-flow-ui.js:283-295 | a custom-id notification still removes the default one but stacks with its own id |
| Overlay.AutoDismissOfWrappers | public/cursor-flow-ui.js:419-523 | prompts and the mismatch alert stay; the external-site alert closes after 8000 ms; progress notices close |
| Overlay.PromptButtonsArePrimary | public/cursor-flow-ui.js:463-512 | every prompt button renders as primary, "Cancel Guide" included, because its `primary` field is absent; only an explicit `false` is not primary |
| Overlay.NavigationPromptMessage | public/cursor-flow-ui.js:490-512 | the navigation prompt shows the given message, else "Please navigate to ..." |
| Overlay.Screen.constructor | public/cursor-flow-ui.js:15-162 | a screen with no cursor, highlight or target |
| Overlay.Screen.CreateButton | public/cursor-flow-ui.js:15-58 | the start button is re-created as a singleton; nothing else changes |
| Overlay.Screen.CreateCursor | public/cursor-flow-ui.js:63-121 | any earlier cursor node is removed and one cursor node is created; it is displayed (the later `display: flex` overrides `display: none`), not yet placed, and reads "Click this element to continue" |
| Overlay.Screen.CreateHighlight | public/cursor-flow-ui.js:126-162 | the highlight node is re-created as a singleton and its styles added once |
| Overlay.Screen.MoveCursorToElement | public/cursor-flow-ui.js:167-184 | with both present, the cursor is shown at the element's corner; with an interaction, its text becomes the caption for that step, and missing page info throws after the move and keeps the old text; nothing else changes |
| Overlay.Screen.HighlightElement | public/cursor-flow-ui.js:210-260 | with both present, the highlight surrounds the element, pulses and may record the target |
| Overlay.Screen.ShowNotification | public/cursor-flow-ui.js:271-414 | the settings are the merged defaults; the old default notification is removed, the new node appended, styles added once |
| Navigation.DedupShape | public/cursor-flow-helpers.js:413-419 | the URLs the observer accepts contain no two consecutive equal URLs, start with a change, end at the latest URL, and come from what was seen |
| Navigation.DedupSnoc | public/cursor-flow-helpers.js:413-419 | one more observation is accepted exactly when it differs from the latest URL |
| Navigation.DedupRepeated | public/cursor-flow-helpers.js:413-419 | repeated mutations on one URL fire at most once |
| Navigation.Watcher.constructor | public/cursor-flow-helpers.js:397-410 | setup starts at the current URL with nothing pending |
| Navigation.Watcher.RouteChangeComplete | public/cursor-flow-helpers.js:402-410 | a router completion fires only when the router exists |
| Navigation.Watcher.Mutation | public/cursor-flow-helpers.js:413-419 | a mutation fires completion exactly when the URL changed, and keeps the dedup invariant |
| Navigation.Watcher.PushState | public/cursor-flow-helpers.js:428-443 | a pushState to a new URL marks navigation in progress and schedules a completion |
| Navigation.Watcher.PushSettled | public/cursor-flow-helpers.js:438-441 | the scheduled completion fires for the oldest pending URL and clears the flag |
| Focus.Distractions | components/PurposeCard.js:6 | the distraction count is at most the total; 0 exactly when none, all exactly when all |
| Focus.FocusScore | components/PurposeCard.js:12-13 | the score is 100 with no checks, otherwise the percentage rounded half-up, at most 100 |
| Focus.FocusScoreRounds | components/PurposeCard.js:12-13 | the score is within one half of the exact focused percentage |
| Focus.FocusScoreExtremes | components/PurposeCard.js:12-13 | all focused gives 100; none focused gives 0 |
| Focus.PurposeStats | pages/purposefuluse-data.js:60-71 | totals add up, the score is bounded, and the edge cases are 100 or 0 |
| Focus.MissingSwitchesScoreFull | components/PurposeCard.js:4 | a purpose without context switches scores 100 with no checks |
| Focus.AppKey | pages/purposefuluse-data.js:75 | a missing or empty app name is grouped under "Unknown" |
| Focus.RecordSwitch | pages/purposefuluse-data.js:75-79 | one call of the callback counts the switch under its app, adding the app to the keys only the first time |
| Focus.AppStats | pages/purposefuluse-data.js:74-80 | the reduce loop builds the specified table |
| Focus.TallyWellFormed | pages/purposefuluse-data.js:74-80 | each app is listed once, the rows are exactly the listed apps, and every row has at least one switch and no more distractions than switches |
| Focus.TallyCounts | pages/purposefuluse-data.js:76-78 | each app's row counts exactly its switches and its distractions |
| Focus.TallySums | pages/purposefuluse-data.js:74-80 | the rows' totals add up to all switches, and their distractions to all distractions |
| Focus.RecordSums | pages/purposefuluse-data.js:75-79 | one switch raises the summed totals by 1 and the summed distractions by 1 exactly when it is a context switch |
| FlowController.Persisted | public/cursor-flow.js:112-125 | saving makes the store restore exactly the playing flag, step and session, and changes nothing else |
| FlowController.WithRestored | public/cursor-flow.js:87-107 | restoring copies the stored essentials and nothing else; nothing changes when nothing is stored |
| FlowController.RestoreAfterPersist | public/cursor-flow.js:87-125 | restoring right after saving changes nothing |
| FlowController.VisualsCreated | public/cursor-flow.js:154-157 | cursor and highlight exist afterwards; creating them again changes nothing |
| FlowController.VisualsAreSingletons | public/cursor-flow.js:221-290 | one cursor node and one highlight node; the style sheet is added at most once |
| FlowController.Stopped | public/cursor-flow.js:337-368 | stopping clears playback and target, hides visuals, relabels the button, drops the click listener, saves, and keeps step and session |
| FlowController.StopIdempotent | public/cursor-flow.js:337-368 | stopping twice is stopping once |
| FlowController.StopRepeated | public/cursor-flow.js:337-368 | any number of stops equals one |
| FlowController.StartRequested | public/cursor-flow.js:316-332 | start is ignored while playing and does not itself start playback |
| FlowController.PlaybackStarted | public/cursor-flow.js:295-311 | a failed load changes nothing; a load sets the recording, starts playing and saves |
| FlowController.StartPlaysOnlyAfterLoad | public/cursor-flow.js:316-332 | playback begins only once a recording has loaded |
| FlowController.FailedLoadKeepsStopLabel | public/cursor-flow.js:200-208 | after a failed load the button reads "Stop Guide" while nothing plays |
| FlowController.Clicked | public/cursor-flow.js:582-605 | a target click advances one step, saves and removes the listener |
| FlowController.ClicksAdvance | public/cursor-flow.js:582-605 | n target clicks advance n steps |
| FlowController.IndexSession | public/cursor-flow.js:138-147 | the session is the first listed one; none on a network error, HTTP error or empty list |
| FlowController.AfterIndex | public/cursor-flow.js:130-149 | a found session is stored and saved; otherwise nothing changes |
| FlowController.IndexLoaded | public/cursor-flow.js:53-57 | after the index, a found session is stored and saved and the button is created with the label for the playing flag; a network error, an HTTP error or an empty list leaves the state as it was |
| FlowController.FirstVisitButtonIff | public/cursor-flow.js:47-57 | on a visit without a saved session the button appears exactly when the index yields a session |
| FlowController.InitOutcome | public/cursor-flow.js:44-82 | init fetches the index exactly when no session was restored, and resumes exactly when a session was playing |
| FlowController.InitResumesSavedSession | public/cursor-flow.js:44-82 | a saved playing session resumes at its saved step with "Stop Guide" |
| FlowController.StepOutcomeOf | public/cursor-flow.js:610-732 | ignored exactly when not playing or no recording is loaded; complete exactly when playing with a recording and past its end; otherwise a non-empty recorded path that differs from the current one gives the mismatch naming it, and anything else waits for the current step's element |
| FlowController.StepNeedsPlayback | public/cursor-flow.js:611 | a step does nothing unless playing with a recording |
| FlowController.StepPastEndStops | public/cursor-flow.js:618-622 | past the last step, playback stops and saves |
| FlowController.WrongPageKeepsProgress | public/cursor-flow.js:636-668 | on the wrong page only the alert is added; the step and the playing flag stay |
| FlowController.MismatchIsDetected | public/cursor-flow.js:639 | a recorded path different from the current one is always a mismatch |
| FlowController.Continued | public/cursor-flow.js:735-744 | the cursor centres on the element, the highlight surrounds it and the click listener is added |
| FlowController.Skipped | public/cursor-flow.js:713-717 | a skipped step advances one and saves |
| FlowController.MissTwiceSkips | public/cursor-flow.js:693-719 | an element missing on both attempts is skipped |
| FlowController.FoundWaitsForClick | public/cursor-flow.js:672-720 | a found element waits for its click without advancing |
| FlowController.RetryOutlivesStop | public/cursor-flow.js:694-720 | a retry scheduled before a stop still advances the step |
| FlowController.CursorFlow.constructor | public/cursor-flow.js:30-39 | the initial state: not playing, step 0, no session, no visuals |
| FlowController.CursorFlow.SaveState | public/cursor-flow.js:112-125 | the new state is the specified save |
| FlowController.CursorFlow.RestoreState | public/cursor-flow.js:87-107 | the new state is the specified restore |
| FlowController.CursorFlow.CreateStartButton | public/cursor-flow.js:162-216 | the button is re-created with the label for the playing flag |
| FlowController.CursorFlow.CreateVisualElements | public/cursor-flow.js:154-157 | the new state is the specified visuals creation |
| FlowController.CursorFlow.CreateCursor | public/cursor-flow.js:221-248 | any earlier cursor node is removed and one hidden cursor is appended |
| FlowController.CursorFlow.CreateHighlight | public/cursor-flow.js:253-290 | any earlier highlight node is removed, one hidden highlight is appended, and the style node is added once |
| FlowController.CursorFlow.Init | public/cursor-flow.js:44-82 | restores the saved state, creates the button only when a session id was restored, and reports what is pending next: fetching the index, nothing, or resuming playback |
| FlowController.CursorFlow.FetchSessionIndex | public/cursor-flow.js:130-149 | returns the first session and stores it |
| FlowController.CursorFlow.FetchIndexThenButton | public/cursor-flow.js:53-57 | the fetch followed, on success only, by the start button: the new state is `IndexLoaded` of the old one |
| FlowController.CursorFlow.HideVisuals | public/cursor-flow.js:337-362 | cursor and highlight are hidden and an existing button reads "Start Guide"; nothing else changes |
| FlowController.CursorFlow.StopPlayback | public/cursor-flow.js:337-368 | the new state is the specified stop |
| FlowController.CursorFlow.StartPlayback | public/cursor-flow.js:316-332 | requests a load exactly when not playing |
| FlowController.CursorFlow.ClickStartButton | public/cursor-flow.js:200-208 | stops when playing, otherwise relabels and requests a load |
| FlowController.CursorFlow.HandleTargetClick | public/cursor-flow.js:582-605 | the new state is the specified click |
| FlowController.CursorFlow.PlayNextStep | public/cursor-flow.js:610-732 | reports the step outcome and performs it |
| FlowController.CursorFlow.PlaybackLoaded | public/cursor-flow.js:295-332 | a loaded recording starts playback and plays the current step, which a restart does not reset; a failed load changes nothing |
| FlowController.CursorFlow.ResumeLoaded | public/cursor-flow.js:66-79 | a resumed session plays on from its saved step |
| FlowController.CursorFlow.MoveCursorToElement | public/cursor-flow.js:565-577 | an existing cursor is shown at the element's centre; without one nothing changes |
| FlowController.CursorFlow.HighlightElement | public/cursor-flow.js:528-560 | an existing highlight frames the element with the corrected 4-pixel margin on every side (see Findings), is shown, pulses and follows it; without one nothing changes |
| FlowController.CursorFlow.ContinueWithElement | public/cursor-flow.js:735-744 | the cursor moves to the element's centre, the highlight frames it, and the element's click is listened for; step, playing flag and storage stay as they were |
| FlowController.CursorFlow.FirstAttempt | public/cursor-flow.js:672-693 | reports whether the element was found, and continues with it if so |
| FlowController.CursorFlow.SecondAttempt | public/cursor-flow.js:694-720 | continues with the element if found on the retry, otherwise skips the step |

## Findings

| source | as written | input that shows it | evidently intended | confidence | as-written member | corrected member |
|---|---|---|---|---|---|---|
| public/cursor-flow.js:543-546 | the highlight starts 4 pixels left of and above the element but grows its width and height by only 4, so it sits flush with the right and bottom edges | any element, e.g. a rect at (100, 100) of size 50 by 20: the box spans 96 to 150 and 96 to 120 | a 4-pixel margin on every side (width and height plus 8), as both library copies do | not executed | Overlay.PlaybackHighlightBox (shown by Overlay.PlaybackHighlightIsLopsided) | Overlay.HighlightBox |

The finding assumes that the highlight is laid out with `box-sizing:
border-box`. Its own inline style does not set that; a global reset such as
Tailwind's preflight would. Under `content-box` the 2-pixel border
(`public/cursor-flow.js:267`) would add 4 pixels to each dimension, and the
box would then sit 4 pixels outside the element on every side.

The controller uses the corrected `Overlay.HighlightBox`.

## Left out

- Timers (`setTimeout`, `setInterval`, `requestAnimationFrame`) are not modelled as time. Each delayed callback is a separate transition (`FirstAttempt`, `SecondAttempt`, `PushSettled`), and its delay constant is not modelled.
- The movement animation and the pulsing loop of the highlight are not modelled. The model records only the final cursor position and whether the highlight pulses.
- `MutationObserver`, the router's event bus and the `pushState` patch are not modelled as mechanisms. The watcher class models only their state changes.
- `fetch` is not modelled. The index response is a parameter (network error, HTTP error, body) and so is the recording load result. JSON text, other JSON shapes, and a data body without a recording are not modelled.
- The throw from `new URL` on a malformed URL is not modelled; hosts are given.
- All CSS, markup, colours, z-indices and inline styles are not modelled. The browser's `querySelectorAll` and `elementsFromPoint` are oracles on the page.
- String lengths count Dafny characters rather than UTF-16 code units.
- Floating point is not modelled: scores are exact reals. `Math.round` is round-half-up on the exact value.
- Locator.QuerySelectorPatched: the `:contains` patch stays installed on `document` across calls. The model uses first-call behaviour each time.
- The throw on an interaction whose element has no `textContent` is not modelled: text is always a string.
- FlowController.CursorFlow.FirstAttempt: the 1-second timer first calls `document.querySelectorAll(interaction.element.tagName)` (`public/cursor-flow.js:674`). An empty or invalid tag name makes that call throw and abandons the callback, so the step is neither continued, retried nor skipped. The model always runs the lookup.
- FlowController.Highlighted, FlowController.Continued, FlowController.CursorFlow.HighlightElement and FlowController.CursorFlow.ContinueWithElement: the controller frames the element with the corrected `Overlay.HighlightBox` (width and height plus 8), not the plus-4 box that `public/cursor-flow.js:545-546` writes. The as-written box is `Overlay.PlaybackHighlightBox`; see "## Findings".
- Removing a notification by its close button, by an action button or by its timer is not modelled. Neither is removing the mismatch alert after 5 s. Button callbacks are not modelled.
- The `timestamp` of a fingerprint, and all console logging, are not modelled.
- Options explicitly set to `undefined` are not modelled: they count as absent. The order of `Object.keys` is not modelled: the tally keeps first-appearance order.
- FlowController.IndexSession: `sessions[0].id` is modelled as the listed session string itself.
- `durationHours`, dates and the React rendering of the purpose cards are not modelled.
- The `findMatchingStep` wrapper (`public/cursor-flow-helpers.js:450-452`) only forwards to `matchPageToStep`, so it has no member of its own.
- Focus.RecordSwitch: treats every application name as new the first time it appears. In the source the tally starts as `{}`, so a name such as `constructor` or `__proto__` finds an inherited value and `!acc[app]` is false (`pages/purposefuluse-data.js:76`); object prototypes are not modelled.
- Dom.ByTagName: compares the stored upper-case tag name exactly. `getElementsByTagName` on an HTML document matches case-insensitively; the recorded `tagName` is always upper case, so only hand-written lower-case names would differ.
- The restored step is taken as a non-negative integer as stored. A corrupt negative step is not modelled.
