# NFC Connect: deep-link routing and NFC status of the Home screen

This project models, in Dafny, the logic of the Home screen of the NFC Connect
mobile app (`src/Screens/Home/index.js`):

- `onDeepLink`. It recognises one of the two custom URL schemes
  (`com.washow.nfcopenrewriter://` for Android, then
  `com.revteltech.nfcopenrewriter://` for iOS) and strips it. It splits the
  rest at the first `?` into an action and a query. For the `share` action
  it decodes the `data` query parameter as a JSON record and routes it by
  `payload.tech`:
  - `Ndef` goes to `NdefWrite`.
  - `NfcA`, `NfcV` and `IsoDep` go to `CustomTransceive`.
  - Any other value only logs a warning.
  - An exception is caught and logged.
- The launch rule. A background tag present at launch opens `TagDetail`.
  Otherwise the initial URL is read and, when truthy, handled as a deep link.
- The listeners for later URLs and background tags, and the SCAN NFC TAG button.
- The `enabled` state. It is set from the NFC library at start-up (line 30)
  and updated by the Android `StateChanged` listener. The CHECK AGAIN button
  would set it too, but it lives in `renderNfcNotEnabled`, which the screen's
  JSX (lines 195-246) never renders. In the shipped screen only line 30
  reaches `Refresh`.

Files:

- `js_values.dfy` (module `JsValues`) covers the JavaScript semantics the
  handler depends on:
  - the JSON value `JSON.parse` yields, and the value `qs.parse` stores under a key;
  - the coercion `String(x)` that `JSON.parse` applies to `params.data`
    (`undefined` becomes `"undefined"`, `null` becomes `"null"`, an array
    is joined with commas);
  - property reads with and without `?.`;
  - clamping `slice`, and `indexOf` for one character.
- `deep_link.dfy` (module `DeepLink`) holds the parser and the dispatcher.
  `onDeepLink` is the total function `OnDeepLink`, whose `LinkOutcome` is one of:
  - `Ignored`;
  - `Unhandled(action)`;
  - `Routed(navigation)`;
  - `Warned(UnrecognizedTech | ParseFailed)`.
- `home_screen.dfy` (module `HomeScreen`) holds the launch rule, the
  listeners, the scan button and the class `NfcStatus`, whose field
  `enabled` (`None` for the initial `null`) is changed in place by its methods.

`qs.parse` and `JSON.parse` are library code. They are passed in as function
parameters: `parseQuery: string -> Query` and
`jsonParse: string -> Option<Json>`, where `None` means the parser throws.
Their results are never inspected beyond what the handler reads. The awaited
native calls become parameters holding their resolved values:
- `NfcManager.getBackgroundTag` becomes an `Option<Tag>`;
- `Linking.getInitialURL` and the `url` event's `url` become `Option<string>`;
- `NfcProxy.isEnabled` becomes a `bool`;
- `NfcProxy.readTag` becomes an `Option<Tag>`.

`Tag` is an opaque type because the screen never looks inside a tag. The
`NfcTech` constants are taken to be the NFC library's string values `"Ndef"`,
`"NfcA"`, `"NfcV"` and `"IsoDep"`. The library is not part of this model.

Points where the code behaves differently from what one might expect of it:

- Only the two custom schemes are recognised. A link such as
  `app://share?data=...` is ignored (`ForeignSchemeIgnored`).
- At launch the initial URL is handled only when it is truthy. An empty string
  is skipped like `null` (`OnLaunch`, `ConsumeLink`). The same holds for the
  `url` event.
- A `data` value that `JSON.parse` turns into `null` does not route. Reading
  `payload` of `null` throws, and the handler catches that and warns
  "fail to parse deep link" (`ShareLinkParseFailure`). A record whose
  `payload` is missing, `null` or not an object warns
  "unrecognized share payload tech" (`ShareLinkUnrecognizedTech`).

## Model

| member | source | states |
|---|---|---|
| JsValues.IndexOf | src/Screens/Home/index.js:55 | `indexOf('?')` is -1 exactly when there is no `?`; otherwise it is a position holding `?` with no `?` before it |
| JsValues.IndexOfAfter | src/Screens/Home/index.js:55 | text free of the character shifts its first position by the text's length, and keeps it absent when absent |
| JsValues.SliceTo | src/Screens/Home/index.js:45 | `slice(0, n)` is a prefix of the string, of length `min(n, length)` |
| JsValues.SliceFrom | src/Screens/Home/index.js:52 | `slice(n)` is what remains after the clamped prefix of length `min(n, length)` |
| JsValues.Join | src/Screens/Home/index.js:64 | `join` of an array: empty for no elements, the element's text (`""` for `null`) for one, and otherwise it starts with the first element's text and a separator |
| JsValues.JoinSnoc | src/Screens/Home/index.js:64 | appending one element to a non-empty array appends a separator and that element's text to its join |
| JsValues.JoinConcat | src/Screens/Home/index.js:64 | the join of two non-empty arrays placed end to end is their joins with exactly one separator between them |
| JsValues.ToJsString | src/Screens/Home/index.js:64 | `String(x)` on a query value: `undefined` gives `"undefined"`, `null` gives `"null"`, a string gives itself, an array gives its comma join, so a one-element array gives its element |
| JsValues.Property | src/Screens/Home/index.js:65 | for the keys `payload` and `tech`, which no value inherits, reading throws exactly on `null`; it yields the field on an object that has it, and `undefined` otherwise |
| JsValues.OptionalProperty | src/Screens/Home/index.js:65 | for those keys, `x?.tech` is defined exactly when `x` is an object with that field, and is then the field |
| DeepLink.SchemeMatchesIsPrefix | src/Screens/Home/index.js:44-46 | the `find` callback `scheme === url.slice(0, scheme.length)` holds exactly when the scheme is a prefix of the URL |
| DeepLink.FindScheme | src/Screens/Home/index.js:41-46 | `find` yields nothing exactly when no scheme matches; otherwise the first matching scheme in list order |
| DeepLink.StripScheme | src/Screens/Home/index.js:41-52 | no result exactly when neither scheme prefixes the URL; otherwise the URL minus the Android scheme when that matches, else minus the iOS scheme |
| DeepLink.SchemesExclusive | src/Screens/Home/index.js:41-43 | no URL starts with both schemes |
| DeepLink.StripSchemeOf | src/Screens/Home/index.js:41-52 | a URL made of a recognised scheme and a rest strips to exactly that rest |
| DeepLink.SplitAction | src/Screens/Home/index.js:53-60 | action followed by query gives back the rest; the action has no `?`; the query is empty exactly when the rest has no `?`, and otherwise starts with `?` |
| DeepLink.SplitActionOf | src/Screens/Home/index.js:53-60 | an action without `?` followed by an empty or `?`-led query splits into exactly those two |
| DeepLink.PayloadTech | src/Screens/Home/index.js:65 | `sharedRecord.payload?.tech` throws exactly on a `null` record, and is defined exactly when the record has an object `payload` with a `tech` field, which it then yields |
| DeepLink.TechScreen | src/Screens/Home/index.js:65-87 | `NdefWrite` exactly for the string `Ndef`, `CustomTransceive` exactly for `NfcA`, `NfcV` or `IsoDep`, never `TagDetail` |
| DeepLink.DataArgument | src/Screens/Home/index.js:64 | `JSON.parse` receives `"undefined"` when `data` is absent, `"null"` for `data` without `=`, the string itself when `data` is a string, and the comma join when the key is repeated, so a one-element array gives its element |
| DeepLink.RouteShare | src/Screens/Home/index.js:64-91 | the share branch navigates or warns; it navigates exactly when `JSON.parse` yields a non-null record whose tech selects a screen, through `Main`, carrying that record unchanged as `savedRecord`, to that screen; the unrecognised-tech warning comes exactly when a non-null record's tech selects none; the parse-failure warning exactly when `JSON.parse` throws or yields `null` |
| DeepLink.OnDeepLink | src/Screens/Home/index.js:39-92 | ignored exactly when neither scheme prefixes the URL; only the `share` action navigates or warns; any other action ends unhandled with that action; every navigation goes to `Main` with a saved record |
| DeepLink.ShareLinkRouted | src/Screens/Home/index.js:63-84 | a share link whose record has `payload.tech` among the four technologies navigates to `NdefWrite` or `CustomTransceive` under `Main` with the record unchanged |
| DeepLink.ShareLinkUnrecognizedTech | src/Screens/Home/index.js:85-87 | a share link whose non-null record has no `payload.tech` string among the four only warns that the tech is unrecognised |
| DeepLink.ShareLinkParseFailure | src/Screens/Home/index.js:64-91 | a share link whose `data` fails to parse, or parses to `null`, is caught and only warns |
| DeepLink.ShareLinkMissingData | src/Screens/Home/index.js:62-91 | a share link without a `data` parameter is caught and only warns, because `JSON.parse` is given `"undefined"` |
| DeepLink.ShareLinkNullData | src/Screens/Home/index.js:62-91 | a share link whose `data` has no `=` is caught and only warns: `JSON.parse` gets `"null"`, and reading `payload` of `null` throws |
| DeepLink.ShareLinkParts | src/Screens/Home/index.js:52-60 | a share link strips to `share` plus its query, and splits into action `share` and that query |
| DeepLink.OtherActionsUnhandled | src/Screens/Home/index.js:63-88 | a recognised link with any action other than `share` ends with neither navigation nor warning |
| DeepLink.LaunchFlagIrrelevant | src/Screens/Home/index.js:39-92 | the `launch` argument does not affect the outcome |
| DeepLink.ForeignSchemeIgnored | src/Screens/Home/index.js:41-50 | any `app://` link is ignored |
| HomeScreen.OnBackgroundTag | src/Screens/Home/index.js:32-37 | a background tag, at launch or from the DiscoverBackgroundTag listener (lines 107-110), opens `TagDetail` under `Main` with that tag |
| HomeScreen.ConsumeLink | src/Screens/Home/index.js:99-103 | a URL is handed to `onDeepLink` exactly when it is present and non-empty, and its outcome is `onDeepLink`'s |
| HomeScreen.OnLaunch | src/Screens/Home/index.js:94-104 | a background tag opens `TagDetail` with that tag under `Main`; only without one is the initial URL read, and it is handled with `launch` set exactly when truthy |
| HomeScreen.BackgroundTagWinsAtLaunch | src/Screens/Home/index.js:95-98 | with a background tag at launch the initial URL makes no difference |
| HomeScreen.OnUrlEvent | src/Screens/Home/index.js:124-128 | a later URL event is handled, with `launch` cleared, exactly when its URL is truthy |
| HomeScreen.LaunchAndLiveLinksAgree | src/Screens/Home/index.js:99-128 | the same URL ends the same way at launch and as a later event |
| HomeScreen.OnScanPressed | src/Screens/Home/index.js:152-157 | SCAN NFC TAG navigates exactly when a tag was read, to `TagDetail` under `Main` with that tag |
| HomeScreen.ScanAndBackgroundTagAgree | src/Screens/Home/index.js:32-37 | a scanned tag and a background tag open the same navigation |
| HomeScreen.NextEnabled | src/Screens/Home/index.js:116-120 | `'on'` and `'off'` set the flag to whether the state is `'on'`; the flag changes only on those two states, and never back to `null` |
| HomeScreen.AfterStateEventsSnoc | src/Screens/Home/index.js:114-121 | applying one more StateChanged event is one more step of the update rule |
| HomeScreen.LastSwitchWins | src/Screens/Home/index.js:114-121 | after any series of StateChanged events, `enabled` is what the last `'on'`/`'off'` event set; without one it is unchanged |
| HomeScreen.NextEnabledIdempotent | src/Screens/Home/index.js:116-120 | the same state delivered twice in a row has the effect of delivering it once |
| HomeScreen.NfcStatus.constructor | src/Screens/Home/index.js:23 | `enabled` starts as `null` |
| HomeScreen.NfcStatus.Refresh | src/Screens/Home/index.js:30 | start-up sets `enabled` to what `isEnabled` resolved to; the CHECK AGAIN handler at lines 186-188 does the same, but it sits in `renderNfcNotEnabled`, which the screen never renders |
| HomeScreen.NfcStatus.OnStateChanged | src/Screens/Home/index.js:114-121 | `'off'` sets `enabled` to false, `'on'` to true, any other or missing state leaves it unchanged |

## Left out

- DeepLink.OnDeepLink: `qs.parse` is taken to be total, a function that never throws. Were it to throw at line 62, before the action is tested, the catch at lines 89-90 would warn "fail to parse deep link" even for a non-`share` action; the model has no such outcome.
- `qs.parse` and `JSON.parse` internals: they are parameters. Beyond the totality of `qs.parse`, the only assumptions made about them are stated as lemma preconditions: `ShareLinkMissingData` requires that `JSON.parse` rejects `"undefined"`, and `ShareLinkNullData` requires that `JSON.parse("null")` yields `null`.
- HomeScreen.OnLaunch: the awaited calls `NfcProxy.isEnabled`, `NfcManager.getBackgroundTag` and `Linking.getInitialURL` (lines 30, 95 and 99) are taken to resolve. They share one `try`, so if any of them rejects, control goes to the catch at lines 129-132. Then no background tag or initial URL is handled at launch, and none of the listeners at lines 107-128 is registered. The model does not capture that path.
- JsValues.Property: models property reads only for the keys `payload` and `tech`, which the handler reads. Inherited properties such as `length`, `constructor` or `toString` are not modelled.
- JsValues.OptionalProperty: restricted to the same two keys, for the same reason.
- `NfcProxy` (`src/NfcProxy`) is not part of this model. Its `isEnabled`, `readTag` and `goToNfcSetting` are represented only by the values they resolve to, or left out.
- The `cancelTechnologyRequest` call in the StateChanged listener: it is a fire-and-forget native call whose failure is swallowed.
- The listener registration itself, and the Android-only check around the StateChanged listener: line 113 registers that listener only when `Platform.OS === 'android'`, so on other platforms `OnStateChanged` is never called.
- The `console.warn('DEEP LINK', link)` at launch: it is logging only. The handler's two warnings are modelled as `Warning` values.
- The `Alert` shown when start-up throws: it is native UI.
- The Settings and Manage Room Access buttons: each is a single fixed navigation. Rendering, layout and styling are left out too. `renderNfcNotEnabled` is never rendered by the screen, so `enabled` has no visible effect there.
- Strings are sequences of `char`. JavaScript's UTF-16 code units are not modelled separately.
- The prompt component, the About/Settings screen and the saved-records screen: they are native-library wrappers, static text and commented-out code.
