# SafetyApp core logic in Dafny

A model of the logic in the personal-safety web app. The rest of the app is user interface wired to a hosted sign-in service and to browser device APIs. The model covers three parts:

- **The SOS button** (`src/components/EmergencyButton.tsx`), module `EmergencyButton`.
  - A press, a trigger key, a media-session action or the `playpressed` event arms a five-second countdown.
  - A one-second interval counts down. When its updater sees a countdown of at most 1, it clears itself and dispatches the alert.
  - The dispatch either raises the "no emergency contacts" alert, or notifies every contact with one message, logs the emergency call and shows a confirmation.
  - The confirmation is hidden again by dismiss or by its five-second timeout.
  - Two pure filters decide which key events trigger the button and which audio devices count as Bluetooth headphones.
  - The state is the record `Sos`. Each handler is a function from the old state to the new one (`AfterPress`, `AfterTick`, `AfterDispatch`, ...). The class `SosButton` holds the same fields and runs the handlers step by step. Each of its methods is proved to agree with its function.
  - Scheduled countdown intervals are an explicit set of handles. Pending confirmation timeouts are a count.
  - Everything the component sends out is recorded in order in `outbox`: location requests, the blocking alert, one notification log line per contact, and the emergency-call log line.
- **The profile page helpers** (`src/pages/ProfilePage.tsx`, lines 1-459), module `ProfilePage`.
  - The theme-gradient lookup.
  - The display-name fallback chain and its initials.
  - The editable profile record: its initial value, cancel, save and the load of saved data. The class `ProfileEditor` holds this state. Browser storage is a map from keys to the parser's reading of the stored text.
- **The app shell** (`src/App.tsx`), module `App`: the login gate, the page for the active tab and its header title.

Module `Text` gives the JavaScript string operations the logic uses: case mapping, `includes`, `split`/`join` on one character, and `trim`. Module `Options` gives the optional value.

Time is discrete. A tick of interval `h` (`AfterTick`, `SosButton.Tick`) and the expiry of a confirmation timeout (`AfterExpiry`) are events that can happen only while that interval or timeout is scheduled. The interval's closure reads a user, a location and the current time. These come in as a `DispatchContext` parameter.

## Model

| member | source | states |
|---|---|---|
| EmergencyButton.SosButton.constructor | src/components/EmergencyButton.tsx:9-16 | the component starts inactive, with countdown 0, no confirmation, no last location, no scheduled interval and nothing sent (`InitialIsConsistent`) |
| EmergencyButton.InitialIsConsistent | src/components/EmergencyButton.tsx:9-12 | the initial state satisfies the invariant, and its four state variables are false, 0, false and absent |
| EmergencyButton.AfterPress | src/components/EmergencyButton.tsx:135-152 | a press keeps the invariant: the countdown stays in 0..5, a running countdown is activated and has a scheduled interval, and handles are never reused |
| EmergencyButton.SosButton.HandleSOSPress | src/components/EmergencyButton.tsx:135-152 | the press handler's new state is `AfterPress` of the old one, and the invariant holds |
| EmergencyButton.TriggerWhileCountingChangesNothing | src/components/EmergencyButton.tsx:136 | while the countdown runs, a press, a key event and a media action leave the whole state unchanged: no new interval, no location request |
| EmergencyButton.PressArms | src/components/EmergencyButton.tsx:138-142 | a press at countdown 0 activates, sets the countdown to 5, requests the location once and schedules exactly one new interval with a fresh handle; confirmation, last location and timeouts are unchanged |
| EmergencyButton.AfterKeyDown | src/components/EmergencyButton.tsx:45-58 | a key event keeps the invariant |
| EmergencyButton.SosButton.HandleKeyDown | src/components/EmergencyButton.tsx:45-58 | the default action is prevented exactly for trigger keys, and the new state is `AfterKeyDown` of the old one |
| EmergencyButton.AfterMediaAction | src/components/EmergencyButton.tsx:61-79 | a media-session play or pause action or a `playpressed` event keeps the invariant |
| EmergencyButton.SosButton.HandleMediaAction | src/components/EmergencyButton.tsx:61-79 | the new state is `AfterMediaAction` of the old one |
| EmergencyButton.TriggerSourcesAgree | src/components/EmergencyButton.tsx:47-79 | every trigger source has the effect of a press; a key that is not a trigger key changes nothing |
| EmergencyButton.IsTriggerKey | src/components/EmergencyButton.tsx:47-52 | the trigger-key test: play/pause, next and previous track, space, 'KeyM' or key code 179 (a definition; `SosButton.HandleKeyDown`, `TriggerSourcesAgree` and `LongPressKeysAreTriggerKeys` state its use and properties) |
| EmergencyButton.LongPressKeysAreTriggerKeys | src/components/EmergencyButton.tsx:47-52 | the keys the long-press listener watches (play/pause and space) are also trigger keys |
| EmergencyButton.IsBluetoothOutput | src/components/EmergencyButton.tsx:23-26 | the per-device filter: an audio output whose lower-cased label contains "bluetooth" or "boult" (a definition; `HasBluetoothOutput`, `BluetoothFilterIgnoresCase` and `DetectsBluetoothInLabel` state its properties) |
| EmergencyButton.HasBluetoothOutput | src/components/EmergencyButton.tsx:22-27 | true exactly when some device is an audio output whose lower-cased label contains "bluetooth" or "boult" |
| EmergencyButton.BluetoothFilterIgnoresCase | src/components/EmergencyButton.tsx:25-26 | lower-casing a label does not change whether the device counts |
| EmergencyButton.DetectsBluetoothInLabel | src/components/EmergencyButton.tsx:23-26 | an audio output whose label contains "Bluetooth" in any letter case, anywhere, is detected |
| EmergencyButton.AfterDeviceCheck | src/components/EmergencyButton.tsx:20-31 | the device check keeps the invariant |
| EmergencyButton.SosButton.CheckAudioDevices | src/components/EmergencyButton.tsx:20-31 | a successful enumeration sets the headphone flag to `HasBluetoothOutput`; a failed one changes nothing |
| EmergencyButton.AfterTicks | src/components/EmergencyButton.tsx:142-150 | `n` firings of one interval, stopping once it is cleared (a definition; `CountdownRunsDown`, `TicksCompose` and `FifthTickDispatches` state its properties) |
| EmergencyButton.AfterTick | src/components/EmergencyButton.tsx:143-150 | a tick keeps the invariant |
| EmergencyButton.SosButton.Tick | src/components/EmergencyButton.tsx:142-150 | the updater's new state is `AfterTick` of the old one |
| EmergencyButton.CountdownRunsDown | src/components/EmergencyButton.tsx:143-149 | while the countdown is above 1, `n` ticks of a scheduled interval only lower it by `n` |
| EmergencyButton.TicksCompose | src/components/EmergencyButton.tsx:142-150 | `n + m` ticks are `n` ticks followed by `m` ticks |
| EmergencyButton.FifthTickDispatches | src/components/EmergencyButton.tsx:139-150 | after a press, ticks 1 to 4 only count down from 5 to 1; the 5th tick clears that interval, sets the countdown to 0, sends the dispatch and leaves the alert activated |
| EmergencyButton.AfterDispatch | src/components/EmergencyButton.tsx:154-177 | a dispatch keeps the invariant |
| EmergencyButton.SosButton.TriggerEmergencyAlert | src/components/EmergencyButton.tsx:154-177 | the dispatch, with its loop over the contacts, produces the state `AfterDispatch` gives |
| EmergencyButton.DispatchWithoutContacts | src/components/EmergencyButton.tsx:155-158 | with no user, no contact list or an empty one, only the blocking alert is sent; confirmation, last location and timeouts are unchanged |
| EmergencyButton.DispatchNotifiesEveryContact | src/components/EmergencyButton.tsx:160-176 | a dispatch with contacts sends exactly one notification per contact, in stored order, all with the same message, then one emergency-call entry. It remembers the reported location: the current one when there is one, else a location exactly when one was remembered. It shows the confirmation and schedules one expiry. The message carries the maps link, or "Unable to determine location" |
| EmergencyButton.FallbackLosesCoordinates | src/components/EmergencyButton.tsx:160-165 | without a current location, falling back to the remembered location sends a maps link with `undefined,undefined` to the first contact and replaces the remembered coordinates with undefined ones |
| EmergencyButton.IntendedDispatchLocation | src/components/EmergencyButton.tsx:160 | the intended fallback reports a location exactly when there is a current or a remembered one, and it is one of the two |
| EmergencyButton.IntendedFallbackLinksLastLocation | src/components/EmergencyButton.tsx:160-165 | with the intended fallback, the message links the remembered location; the component as written agrees with it exactly when there is a current location, nothing remembered, or undefined coordinates remembered |
| EmergencyButton.HasContacts | src/components/EmergencyButton.tsx:155 | the guard of the dispatch: a user with a non-empty contact list (a definition; `DispatchWithoutContacts` and `DispatchNotifiesEveryContact` state both branches) |
| EmergencyButton.DispatchLocation | src/components/EmergencyButton.tsx:160-161 | the location a dispatch reports and remembers, as written: the current one, else undefined coordinates when one is remembered, else none (a definition; `DispatchNotifiesEveryContact`, `FallbackLosesCoordinates` and `IntendedFallbackLinksLastLocation` state its properties) |
| EmergencyButton.Notifications | src/components/EmergencyButton.tsx:169-171 | one notification per contact, all with the same message (a definition; `NotificationsAreOnePerContact` states its length and entries) |
| EmergencyButton.DispatchEffects | src/components/EmergencyButton.tsx:155-173 | everything a dispatch sends, in order (a definition; `DispatchWithoutContacts` and `DispatchNotifiesEveryContact` state both branches) |
| EmergencyButton.CallTarget | src/components/EmergencyButton.tsx:173 | the user's phone, or 'unknown number' when it is missing (a definition; used by `DispatchNotifiesEveryContact`) |
| EmergencyButton.NotificationsAreOnePerContact | src/components/EmergencyButton.tsx:169-171 | the notifications are as many as the contacts, and the i-th goes to the i-th contact |
| EmergencyButton.SenderName | src/components/EmergencyButton.tsx:163 | the user's name, or 'User' when it is missing (a definition; `AlertMessageContents` states that the message contains it) |
| EmergencyButton.MapsLink | src/components/EmergencyButton.tsx:165 | the maps link for a position (a definition; `AlertMessageContents` states that the message contains it) |
| EmergencyButton.LocationText | src/components/EmergencyButton.tsx:164-166 | the location line's value: the maps link, or 'Unable to determine location' (a definition; `AlertMessageContents` states that the message contains it) |
| EmergencyButton.AlertMessage | src/components/EmergencyButton.tsx:163-167 | the three-line alert message (a definition; `AlertMessageContents` states what it contains) |
| EmergencyButton.AlertMessageContents | src/components/EmergencyButton.tsx:163-167 | the message contains the sender's name ("User" when absent) and the maps link of the reported position, or the no-location text |
| EmergencyButton.AfterCancel | src/components/EmergencyButton.tsx:179-182 | cancel, offered only while the countdown runs, keeps the invariant |
| EmergencyButton.SosButton.CancelAlert | src/components/EmergencyButton.tsx:179-182 | while the countdown runs (the button is shown only then), cancel sets the countdown to 0 and deactivates; the intervals stay scheduled |
| EmergencyButton.CancelledCountdownStillDispatches | src/components/EmergencyButton.tsx:142-146 | after cancelling a running countdown, its interval is still scheduled, and its next tick sends the full dispatch |
| EmergencyButton.PressAfterCancelDispatchesTwice | src/components/EmergencyButton.tsx:135-182 | press, one tick, cancel, press leaves two intervals; firing in turn (old, new, old, new) they bring the countdown from 5 to 1 at double speed, then the old one dispatches and the new one dispatches again, leaving none scheduled |
| EmergencyButton.CancelBreaksSingleTimer | src/components/EmergencyButton.tsx:179-182 | cancelling a running countdown always leaves a scheduled interval with the countdown at 0 |
| EmergencyButton.AfterCancelClearingInterval | src/components/EmergencyButton.tsx:179-182 | the corrected cancel, which also clears the interval, keeps the invariant |
| EmergencyButton.ClearingCancelKeepsSingleTimer | src/components/EmergencyButton.tsx:135-182 | with the corrected cancel, every event keeps at most one scheduled interval, and one is scheduled exactly while the countdown runs |
| EmergencyButton.PressAfterClearingCancelDispatchesOnce | src/components/EmergencyButton.tsx:135-182 | with the corrected cancel, the same press, tick, cancel, press sequence dispatches once and leaves no interval scheduled |
| EmergencyButton.AfterDismiss | src/components/EmergencyButton.tsx:297 | dismiss keeps the invariant |
| EmergencyButton.SosButton.Dismiss | src/components/EmergencyButton.tsx:297 | dismiss hides the confirmation and changes nothing else |
| EmergencyButton.DismissIsIdempotent | src/components/EmergencyButton.tsx:297 | dismiss hides the confirmation, and a second dismiss changes nothing |
| EmergencyButton.AfterExpiry | src/components/EmergencyButton.tsx:176 | the expiry keeps the invariant |
| EmergencyButton.SosButton.ExpireConfirmation | src/components/EmergencyButton.tsx:176 | a pending timeout hides the confirmation and is used up |
| EmergencyButton.ExpiryHidesConfirmation | src/components/EmergencyButton.tsx:176 | the expiry hides the confirmation, exactly as dismiss does, and one pending timeout is gone |
| Text.LowerChar | src/components/EmergencyButton.tsx:25 | one character lower-cased: an upper-case letter becomes a lower-case one, any other character is kept |
| Text.Lower | src/components/EmergencyButton.tsx:25-26 | lower-casing keeps the length and leaves no upper-case letter |
| Text.LowerIdempotent | src/components/EmergencyButton.tsx:25-26 | lower-casing twice is lower-casing once |
| Text.Contains | src/components/EmergencyButton.tsx:25-26 | `includes` is true exactly when the text occurs at some position |
| Text.ContainsInfix | src/components/EmergencyButton.tsx:163-166 | a text contains whatever is placed inside it |
| Text.Split | src/pages/ProfilePage.tsx:111 | `split` on a character gives at least one piece, and no piece contains the separator |
| Text.Join | src/pages/ProfilePage.tsx:113 | `join` with a one-character separator (a definition; `JoinSplit` and `SplitJoin` state that it inverts `Split`) |
| Text.JoinSplit | src/pages/ProfilePage.tsx:108-116 | a helper fact about `split`: joining the pieces with the same separator gives back the text, so the words the initials come from lose or add no character of the name |
| Text.SplitJoin | src/pages/ProfilePage.tsx:108-116 | a helper fact about `split`: splitting words joined by the separator gives back the words, used for the initials of two words |
| Text.SplitWord | src/pages/ProfilePage.tsx:111 | a text without the separator is one piece |
| Text.SplitAfterWord | src/pages/ProfilePage.tsx:111 | a separator-free word followed by the separator is the first piece |
| Text.BeforeFirst | src/pages/ProfilePage.tsx:102 | `split('@')[0]` contains no '@' |
| Text.BeforeFirstIsPrefix | src/pages/ProfilePage.tsx:102 | `split('@')[0]` is a prefix of the text that ends at its first '@' |
| Text.UpperChar | src/pages/ProfilePage.tsx:114 | one character upper-cased: a lower-case letter becomes an upper-case one, any other character is kept |
| Text.Upper | src/pages/ProfilePage.tsx:114 | upper-casing keeps the length and leaves no lower-case letter |
| Text.IsWhitespace | src/pages/ProfilePage.tsx:15 | the white space and line terminators JavaScript's `trim` removes (a definition; `Trim`, `TrimStart` and `TrimEnd` use it) |
| Text.TrimStart | src/pages/ProfilePage.tsx:15 | the suffix left after removing leading white space: only white space was removed, and the result does not start with white space |
| Text.TrimEnd | src/pages/ProfilePage.tsx:15 | the prefix left after removing trailing white space: only white space was removed, and the result does not end with white space |
| Text.Trim | src/pages/ProfilePage.tsx:15 | `trim` gives a slice of the text with only white space before and after it, and the slice has no white space at either end |
| Text.TrimOfTrimmed | src/pages/ProfilePage.tsx:15 | trimming a text without white space at its ends changes nothing |
| Text.TrimDropsTrailingSpace | src/pages/ProfilePage.tsx:15 | trimming `s + " "` gives `s` when `s` is trimmed |
| ProfilePage.FindTheme | src/pages/ProfilePage.tsx:89 | `find` returns the first entry whose value is the colour, or nothing when no entry matches |
| ProfilePage.ThemeGradient | src/pages/ProfilePage.tsx:88-91 | the gradient of a theme colour (a definition; `ThemeGradientIsFirstMatch`, `UnknownColorLooksPurple` and `LoadedThemeKeepsGradient` state its properties) |
| ProfilePage.ThemeGradientIsFirstMatch | src/pages/ProfilePage.tsx:79-91 | the gradient is that of the first table entry whose value is the colour, or 'from-purple-500 to-pink-500' when none matches |
| ProfilePage.UnknownColorLooksPurple | src/pages/ProfilePage.tsx:80-91 | an unknown colour gets the same gradient as 'purple' |
| ProfilePage.DisplayName | src/pages/ProfilePage.tsx:94-105 | the case chain "given family", given name, name, the e-mail address before its first '@', 'User' (a definition; `DisplayNameFromEmail`, `DisplayNameEmptyIff` and `FormNameIsDisplayName` state its properties) |
| ProfilePage.DisplayNameFromEmail | src/pages/ProfilePage.tsx:101-102 | with only an e-mail address, the display name is the part of it before the first '@' |
| ProfilePage.DisplayNameEmptyIff | src/pages/ProfilePage.tsx:94-105 | the display name is empty exactly when there is no given name and no name, and the e-mail address starts with '@' |
| ProfilePage.FirstChars | src/pages/ProfilePage.tsx:112-113 | at most one character per word; when no word is empty, exactly the first character of every word, in order |
| ProfilePage.Initials | src/pages/ProfilePage.tsx:108-116 | the initials are at most 2 characters and contain no lower-case letter |
| ProfilePage.UserInitials | src/pages/ProfilePage.tsx:108-116 | the initials of the display name (a definition; `Initials` and `UserInitialsOfFullName` state its properties) |
| ProfilePage.InitialsOfOneWord | src/pages/ProfilePage.tsx:108-116 | the initials of one word are its upper-cased first character |
| ProfilePage.InitialsOfTwoWords | src/pages/ProfilePage.tsx:108-116 | the initials of two words are their upper-cased first characters, in order |
| ProfilePage.InitialsIgnoreLaterWords | src/pages/ProfilePage.tsx:108-116 | with three or more words, only the first two give initials |
| ProfilePage.UserInitialsOfFullName | src/pages/ProfilePage.tsx:94-116 | a user with a one-word given name and a one-word family name gets both first letters, upper-cased |
| ProfilePage.FormName | src/pages/ProfilePage.tsx:15 | the record's initial name (a definition; `FormNameCases` and `FormNameIsDisplayName` state its cases) |
| ProfilePage.InitialForm | src/pages/ProfilePage.tsx:14-20 | the record on mount and after cancel (a definition; `ProfileEditor.constructor`, `ProfileEditor.HandleCancel` and `FormNameCases` state its use and contents) |
| ProfilePage.FormNameCases | src/pages/ProfilePage.tsx:15 | the record's name is 'User' without a given name, the given name alone without a family name, and "given family" with both, for names without white space at their ends |
| ProfilePage.FormNameIsDisplayName | src/pages/ProfilePage.tsx:94-98 | with a given name, the record's initial name equals the displayed name, for given and family names without white space at their ends |
| ProfilePage.ProfileEditor.constructor | src/pages/ProfilePage.tsx:10-23 | the record starts as `InitialForm(user)`: bio and location empty, avatar empty, theme 'purple', not editing, no upload panel |
| ProfilePage.ProfileEditor.HandleCancel | src/pages/ProfilePage.tsx:42-53 | cancel restores exactly the initial record and leaves edit mode and the upload panel; avatar, theme and storage are kept |
| ProfilePage.ProfileEditor.HandleSave | src/pages/ProfilePage.tsx:26-40 | save stores the record with the avatar and theme under 'user_profile_data', and leaves edit mode and the upload panel |
| ProfilePage.ProfileEditor.LoadSaved | src/pages/ProfilePage.tsx:56-72 | a parsed record replaces bio, location, avatar and theme (default 'purple'); a missing or unparseable entry changes nothing |
| ProfilePage.SaveRecord | src/pages/ProfilePage.tsx:32-36 | the stored record: the profile fields plus avatar and theme (a definition; `SaveThenLoad` states that loading it gives them back) |
| ProfilePage.MergeSaved | src/pages/ProfilePage.tsx:61-65 | the load changes only bio and location; name, e-mail and phone are kept |
| ProfilePage.LoadedTheme | src/pages/ProfilePage.tsx:67 | the loaded theme is never empty, and is the stored one when that is not empty |
| ProfilePage.SaveThenLoad | src/pages/ProfilePage.tsx:32-67 | loading what was saved gives back the record and the avatar, and the theme unless it was empty |
| ProfilePage.LoadedThemeKeepsGradient | src/pages/ProfilePage.tsx:67-91 | the loaded theme has the same gradient as the stored one |
| App.PageTitle | src/App.tsx:51-53 | the configured title of the tab, or 'SafetyApp' (a definition; `KnownTabs`, `UnknownTab` and `TitleMatchesPage` state its values) |
| App.RenderPage | src/App.tsx:34-49 | the page for the tab, the home page by default (a definition; `KnownTabs`, `UnknownTab` and `TitleMatchesPage` state its values) |
| App.AppContent | src/App.tsx:26-57 | the login page without a user, else the header title and page the shell computes (a definition; `LoginGate` and `InitialScreen` state its values; the rendering of the shell is under "## Left out") |
| App.KnownTabs | src/App.tsx:17-23 | home, location, contacts, safety and profile get their configured titles and their own pages |
| App.UnknownTab | src/App.tsx:46-52 | any other tab is titled 'SafetyApp' and shows the home page |
| App.TitleMatchesPage | src/App.tsx:35-53 | for every tab, the header title is the title of the page shown |
| App.LoginGate | src/App.tsx:30-32 | without a user the login page is shown, whatever the active tab |
| App.InitialScreen | src/App.tsx:18-28 | the first tab is 'home', which shows the home page under 'SafetyApp' |

## Findings

| source | as written | input that shows it | evidently intended | confidence | as-written member | corrected member |
|---|---|---|---|---|---|---|
| src/components/EmergencyButton.tsx:179-182 | cancel sets the countdown to 0 but never clears the countdown interval | press, then cancel while the countdown shows 4: the interval's next tick sees 0, takes the `prev <= 1` branch and sends the cancelled alert to every contact | cancel also clears the interval, so a cancelled alert is never sent | high (proved in the model, not executed) | EmergencyButton.CancelledCountdownStillDispatches | EmergencyButton.ClearingCancelKeepsSingleTimer |
| src/components/EmergencyButton.tsx:135-182 | a press after a cancel schedules a second interval beside the one still running | press, one tick, cancel, press: both intervals stay scheduled and fire in turn, so the rearmed countdown runs at double speed from 5 to 1; then the old interval's next firing dispatches and the new one's next firing dispatches again | one press arms one countdown and sends at most one alert | high (proved in the model, not executed) | EmergencyButton.PressAfterCancelDispatchesTwice | EmergencyButton.PressAfterClearingCancelDispatchesOnce |
| src/components/EmergencyButton.tsx:160-165 | the fallback stores the remembered location with `lat`/`lng` fields but reads `latitude`/`longitude` from it | a dispatch with contacts, no current location and a remembered one: the link reads `https://maps.google.com/?q=undefined,undefined`, and undefined coordinates are remembered | the message links the remembered coordinates | high (proved in the model, not executed) | EmergencyButton.FallbackLosesCoordinates | EmergencyButton.IntendedFallbackLinksLastLocation |

The corrected cancel is `EmergencyButton.AfterCancelClearingInterval`. The intended fallback is `EmergencyButton.IntendedDispatchLocation`. The class `SosButton` keeps the cancel and the fallback as written, so that it models what the component does.

## Left out

- Rendering, styling, icons, dark mode and the disabled state of the button. The disabled state (line 190) only repeats the press guard, which `TriggerWhileCountingChangesNothing` covers.
- The sign-in service calls, `src/pages/LoginPage.tsx` and `src/main.tsx`.
- React's development mode (`StrictMode` in `src/main.tsx`) runs state updaters twice. The countdown updater has side effects, so in development the clear and the dispatch would happen twice. The model takes the production behaviour: one updater run per tick.
- Listener registration and removal. The removals at EmergencyButton.tsx:85 and 119-120 pass new functions and remove nothing, so old `playpressed` and long-press listeners, with the countdown they captured, stay registered. The model treats every trigger source as reading the current countdown.
- The long-press path (EmergencyButton.tsx:93-116): a one-second hold on play/pause or space calls the guarded press. It is the same press as `AfterMediaAction`. Only its keys are stated, in `LongPressKeysAreTriggerKeys`.
- The 30-second location poll (EmergencyButton.tsx:125-133) and all wall-clock durations. Ticks and expiries are discrete events. `FifthTickDispatches` records that the alert stays activated after the dispatch, so in the component the poll keeps running. Cancel is offered only while a countdown runs (EmergencyButton.tsx:308-315), so `AfterCancel` and `SosButton.CancelAlert` require a running countdown, and nothing clears the flag after a dispatch.
- The location hook's asynchronous answer. The position a dispatch reads is a parameter. The remembered location is kept in the shape the dispatch reads it in. Undefined coordinates are the text `undefined`, which is what the message prints for them.
- The render of the remembered location at EmergencyButton.tsx:283 calls `toFixed` on the stored coordinates. It would fail once they are undefined. Rendering is not modelled.
- The debug expression at App.tsx:59, `{"----->",user}`, is a comma expression whose value is the user object. React refuses a plain object as a child and throws while rendering the signed-in shell, and TypeScript rejects the comma operator in a JSX expression. So as written a signed-in user does not see the header and page. Rendering is not modelled: `App.AppContent` gives the title and page the shell computes, and `LoginGate` and `InitialScreen` state those, not what reaches the screen.
- React closure staleness: the interval's closure reads the user, location and last location from the render in which the button was pressed. The model passes user and location in, and reads the current last location, which differs only when two dispatches overlap.
- Number and date formatting: coordinates are kept as their printed text, `toFixed(6)` (line 283) is display only, and the time is an opaque text parameter. The notification and call log lines are structured outbound events, not formatted strings.
- The `alert` call at EmergencyButton.tsx:156 is modelled as the outbound `BlockingAlert` event; only its blocking dialog is left out. `window.open` (the call button at line 290), `console.error` and the `console.log` of the save handler (ProfilePage.tsx:29) are left out.
- Text.LowerChar, Text.Lower: map only the ASCII letters A-Z, where JavaScript's `toLowerCase` maps all Unicode letters; labels are compared after this narrower mapping.
- Text.UpperChar, Text.Upper: map only the ASCII letters a-z, where JavaScript's `toUpperCase` maps all Unicode letters (some to two characters).
- ProfilePage.Initials: characters are Unicode scalar values, while `charAt(0)` takes a UTF-16 code unit, so a word that starts with a character outside the Basic Multilingual Plane gives half a surrogate pair in the source.
- JSON text and its parsing. Storage holds either a parsed record or a marker for text that does not parse. A missing key, an empty stored text and a parse error all leave the state unchanged. Record fields of other JSON types are not modelled.
- ProfilePage.tsx lines 461-791, and the page's single-assignment setters (edit toggle, field inputs, avatar and theme pickers, logout).
- App: the tab lookup `APP_CONFIG.pages[activeTab]` would also find inherited object properties such as `constructor`. The model assumes tabs are plain names, as the navigation bar supplies them. `setActiveTab` replaces the tab wholesale and needs no model.
