# Mitti page script, modelled in Dafny

Mitti is a small bilingual (English/Hindi) village web site. One browser script drives
every page. It does the following:
- switches the interface language and remembers it;
- records voice stories with the microphone, transcribing them live where the browser
  can;
- stores what the three forms submit (products for the bazaar, answers to questions,
  shared stories) in the browser's persistent key-value store;
- renders those lists back into the pages;
- highlights the bottom-navigation item of the current page.

This project models that script's logic with the browser taken out, and proves what it
promises.

- `js.dfy` (module `Js`): the JavaScript values and string built-ins the script relies on.
  - `undefined` is `Option.None`.
  - `a || b` on strings is `Or`/`OrElse`.
  - A template's `${undefined}` is `Show`.
  - The rest are `trim` (with the ECMAScript white-space set), `indexOf`/`includes`, the
    string form of `replace`, `substring(0, n)`, `charAt(0)`, `toLowerCase` and
    `split('/').pop()`.
- `store.dfy` (module `Store`): the persistent store.
  - String values (language, last recording, the profile's author and village) sit
    under their keys.
  - Lists of records (stories, products, answers, audio items) sit under theirs.
  - A missing list reads as empty, and every write prepends (`unshift`).
- `language.dfy` (module `Language`): covers:
  - the initial language;
  - the toggle;
  - every "`en` gives English, anything else Hindi" choice;
  - the text `updateLanguage` gives an element with `data-en`/`data-hi`;
  - the toggle button's label;
  - the speech locale.
- `transcript.dfy` (module `Transcript`): the `onresult` loop that splits final from
  interim recognition text, and the trimmed transcript it produces.
- `capture.dfy` (module `Capture`): what `onstop` writes to the store.
  - With speech, it writes a "Voice Story" built from the transcript and the profile.
  - Without speech, it writes a `{url, timestamp}` audio item.
- `views.dfy` (module `Views`): the values each list renderer interpolates.
  - Stories: preview, avatar letter and the copy buttons' bindings.
  - Products and answers: field fallbacks between the form's names and the legacy ones.
  - Answers: the card that throws.
  - The audio list.
- `nav.dfy` (module `Nav`): the current path and the active-item rule of the bottom
  navigation.
- `app.dfy` (module `App`): the script's globals and the page parts it writes to, as one
  `Page` object.
  - Each event handler is a method. It returns the toasts it shows, in order.
  - Browser outcomes the script waits for are parameters: microphone permission, speech
    support, the recording's object URL and the clock.

The model follows the code also where the script behaves in ways a reader may not expect.
- Stored JSON that is malformed makes the script throw. It is not read as an empty list.
  The store holds lists as values, so that case is not modelled at all.
- An answer whose name fields are both missing makes `renderCommunityAnswers` throw. That
  ends the whole page-load handler, so the stories and the audio list are not rendered.
  `RenderAnswers` and `Init` report it through `completed`.
- The page's recent-stories container binds its copy buttons as the script does, which
  is not what the script evidently means (see "Findings"). `Page.RenderStories` and
  `Page.OnStop` use the as-written binding. The intended binding is modelled beside it,
  as `Views.RenderRecentStories` and `Views.PrependStory`.
- `initLanguage` runs before `initActiveNav`, so on a page in Hindi the nav labels are
  already Devanagari when the active item is chosen. On the root path the Home item is
  then not highlighted (`Nav.HomeItemInactiveOnRootInHindi`).

## Model

| member | source | states |
|---|---|---|
| Store.PrependThenRead | script.js:153-155 | after read, `unshift`, write, the list reads back as the new record followed by the whole old list; every other list and string key is unchanged |
| Store.PrependKeepsOld | script.js:75-77 | a prepend keeps every earlier record, each one place further down |
| Language.Initial | script.js:3 | the starting language is the stored one when non-empty, else `en`; never empty |
| Language.Toggle | script.js:31 | the result is always `en` or `hi`, and it is `hi` exactly when the language was `en` |
| Language.ToggleInvolution | script.js:31 | on `en`/`hi` the toggle always changes the language and two toggles restore it |
| Language.ToggleUnknown | script.js:31 | an unknown stored value reads as Hindi in every choice, becomes `en` on the first toggle and `hi` on the second |
| Language.ElementText | script.js:184-189 | an element takes the attribute of the current language when it is non-empty, else keeps its text |
| Language.ToggleLabel | script.js:192-199 | the toggle button names the language a click switches to, never the current one |
| Language.SpeechLocale | script.js:101 | the recogniser's locale is the language code followed by `-IN` |
| Language.DoubleToggleRestoresText | script.js:30-33 | two toggles restore every element's text and the button label |
| App.Page.ToggleLanguage | script.js:30-33 | the language becomes its toggle and is written under `mittiLanguage`; nothing else changes |
| App.Page.constructor | script.js:3-8 | page load: language from the store or `en`, not recording, no recorder running, empty chunk buffer and transcript, no form bound |
| App.Page.ToggleRecording | script.js:36-138 | stop path: `recording` false, recorder and recogniser stopped, buffers kept, "Recording saved". Denial: nothing starts. Grant: recorder on an empty buffer, recogniser on an empty transcript when supported. `recording` becomes true only from idle with the microphone granted |
| App.Page.OnDataAvailable | script.js:58 | the chunk is appended to the buffer; nothing else changes |
| App.Page.OnStop | script.js:59-89 | the store becomes `Capture.Finalized` of the old store and transcript; buffer and transcript are emptied; with speech and a recent-stories container, the voice story goes on top as `prependStoryToUI` writes it: its button copies it and every button below loses its handler |
| Capture.HasSpeechIff | script.js:66 | the transcript counts as speech exactly when it holds a non-white-space character |
| Capture.VoiceStoryFields | script.js:67-74 | the story has exactly title `Voice Story`, the transcript as content, author from `mittiAuthor` or `You`, village from `mittiVillage` or empty, category `voice`, and the timestamp |
| Capture.VoiceStoryIgnoresLastRecording | script.js:63-74 | saving `lastRecording` first does not change the story built after it |
| Capture.FinalizeWithSpeech | script.js:63-81 | with speech exactly one voice story is prepended to `mittiStories`, `mittiAudio` is unchanged and `lastRecording` holds the url |
| Capture.FinalizeWithoutSpeech | script.js:63-87 | without speech exactly one `{url, timestamp}` is prepended to `mittiAudio`, `mittiStories` is unchanged and `lastRecording` holds the url |
| Capture.FinalizeExactlyOne | script.js:59-89 | every stop adds exactly one record across stories and audio and changes no other key |
| Capture.BlankTranscriptIsAudio | script.js:66 | a white-space-only transcript never becomes a story |
| Transcript.Compose | script.js:107-119 | the loop's result is the trimmed final text, a blank, and the interim text, over the results from `resultIndex` on |
| Transcript.SplitConservesText | script.js:109-113 | the final text is the text of exactly the final results and the interim text that of exactly the others, each in result order; the two groups are all the results, none counted twice |
| Transcript.ResultsPartition | script.js:110-112 | every result goes to exactly one of the final and the interim group, according to `isFinal` |
| Transcript.AllFinal | script.js:111 | with only final results, final is all the text and interim is empty |
| Transcript.NoneFinal | script.js:112 | with only interim results, interim is all the text and final is empty |
| Transcript.ComposedAllFinal | script.js:109-119 | with only final results the transcript is their trimmed concatenation |
| Transcript.ComposedNoneFinal | script.js:109-119 | with only interim results the transcript is their trimmed concatenation |
| Transcript.ComposedPastEnd | script.js:109 | a `resultIndex` past the last result leaves an empty transcript |
| App.Page.OnResult | script.js:106-120 | the transcript becomes the composed text, mirrored into the content field when the page has one |
| App.Submission | script.js:150-151 | the stored record is the form's fields plus the timestamp field (which replaces a field of that name) |
| App.BindOnce | script.js:143-145 | binding a bound form again, with any listener, changes nothing |
| App.BindKeeps | script.js:140-145 | binding keeps every earlier listener, binds only forms on the page, and binds an unbound form to the given listener |
| App.Page.HandleFormSubmit | script.js:140-146 | the listeners become `Bind` of the old ones; nothing else changes |
| App.Page.Submit | script.js:147-180 | a bound form's record is prepended under its listener's key and its message shown; the content field is emptied when its form is reset; the list the form feeds, if present, then shows the new stored list (products, answers up to the first throw, or stories as written), and `completed` says whether the answers render finished; every other list is unchanged; an unbound form changes nothing |
| App.InitBindsEachForm | script.js:410-426 | after page load each unbound form on the page carries its key and its message in the current language; no earlier binding is replaced |
| App.Page.Init | script.js:409-431 | forms bound as `InitBindings` says; every container the page has shows its stored list (bazaar, answers, then stories as written and audio); `completed` holds exactly when the page has no answers container or every stored answer renders, and otherwise stories and audio are left unrendered |
| App.Page.RenderStories | script.js:293-305 | the container shows the placeholder exactly when no story is stored, else the first `min(3, n)` stored stories in order; as written, only the top button has a handler and it copies the last story shown |
| App.Page.RenderBazaar | script.js:344-378 | the container shows one card per stored product, in order |
| App.Page.RenderAnswers | script.js:380-399 | the container shows the answers' cards up to the first that throws |
| App.Page.RenderAudio | script.js:436-458 | the container shows "No recordings yet." or one player per item, in order |
| Views.RenderRecentStories | script.js:293-305 | corrected `renderRecentStories`: the cards are exactly the first `min(3, n)` stories in stored order, the placeholder shows exactly when `n = 0`, and (unlike the script) each button copies its own story |
| Views.PreviewShape | script.js:313 | the preview is a prefix of the content of length `min(60, length)`, then `...`; missing content gives `...` |
| Views.AvatarMatchesAuthor | script.js:315-317 | the avatar is one letter, the first of the name shown beside it; both fall back to `U`/`Unknown` |
| Views.PrependStoryKeeps | script.js:307-341 | corrected `prependStoryToUI(story)`: the new story goes on top with its own copy handler; the cards below keep their order and handlers |
| Views.PrependStoryAsWrittenDrops | script.js:326-341 | as written, putting a story on top keeps the cards below in order, but only the new top button has a handler |
| Views.PrependCounterexample | script.js:326-341 | card A with a working button, then B put on top: as written the buttons copy B and nothing; the corrected prepend keeps A's |
| Views.RenderAsWrittenShows | script.js:293-341 | as written, the container shows the placeholder exactly for no stories, else the first `min(3, n)` in order, and only the top button works, copying the last one shown |
| Views.AppendAllAsWrittenShape | script.js:302-341 | as written, rendering keeps the stories in order, but only the top button keeps a handler, and it copies the last story appended |
| Views.CopyBindingAsWritten | script.js:326-341 | as written, with two or more stories the top card shows the first story and its button copies the last one rendered; the second button copies nothing |
| Views.CopyBindingCounterexample | script.js:326-341 | stories A then B: the top card is titled A and its button copies `B\n\nsecond` |
| Views.ProductCardShape | script.js:363-369 | every product card has a seller and an avatar that is the seller's first letter, a price in `₹` and a `tel:` link |
| Views.ProductFallbacks | script.js:357-369 | for each of name, price, description and contact, the non-empty form field is shown, else the legacy field as it is, else `undefined` (giving `₹undefined`, `tel:undefined`); seller and village show the non-empty form field, else the non-empty legacy field, else `Seller` (avatar `S`) or nothing |
| Views.SellFormCard | script.js:357-358 | a sell form with a name and a price shows both |
| Views.RenderBazaarItems | script.js:344-378 | one card per product, in stored order |
| Views.AnswerCardOf | script.js:388-393 | the card throws exactly when `answerName` is empty or missing and `name` is missing; otherwise the avatar is the first letter of the name shown |
| Views.AnswerFallbacks | script.js:388-393 | text and village show the non-empty form field, else the legacy field as it is, else `undefined` (no empty default) |
| Views.EmptyAnswerNameFails | script.js:390 | an answer form submitted with an empty name cannot be rendered |
| Views.RenderCommunityAnswers | script.js:380-399 | cards in stored order up to the first answer that throws; the render completes exactly when no answer throws |
| Views.RenderAudioList | script.js:436-458 | "No recordings yet." exactly for an empty list, else one player per item with its url, in order |
| Nav.CurrentPath | script.js:278 | the path is a non-empty, slash-free name: the last segment, or `home.html` when that is empty |
| Nav.LastSegmentAfterSep | script.js:278 | the last segment of a path is what follows its last `/` |
| Nav.ActiveIff | script.js:283-287 | an item is active exactly when its lower-cased label, or its href less the first `.html`, occurs in the path |
| Nav.MissingLabelAlwaysActive | script.js:284-287 | an item without a label is active on every page |
| Nav.HrefKeyStripsSuffix | script.js:287 | for an href `page.html` whose `page` has no `.html`, the key is `page` |
| Nav.LabelInPathActive | script.js:284-287 | a label occurring in the path makes the item active whatever its href |
| Nav.ShareItemOnSharePage | script.js:278-287 | the Share item is active on `/share.html` |
| Nav.HomeItemOnRoot | script.js:278-287 | the root path reads as `home.html`, and the Home item with its English label `Home` is active there |
| Nav.HomeItemInactiveOnRootInHindi | script.js:278-287 | once the labels are in Hindi, the Home item (label `घर`, href `index.html`) is not active on the root path: neither `घर` nor `index` occurs in `home.html` |

## Left out

- HTML, `innerHTML` templating, shadow-DOM lookup, modals and `feather.replace()`. A card is the record it shows and the values it interpolates; the markup around them is not modelled.
- The toast element and its timers: a handler returns its messages instead.
- The "Copied to clipboard" and "Audio URL copied" toasts, and the clipboard itself: a copy button is modelled by the record it copies.
- `getUserMedia`, `MediaRecorder`, `Blob` and `URL.createObjectURL`: permission is a parameter, chunks are byte strings, and the object URL is a string parameter.
- `SpeechRecognition`: its result events are inputs to `OnResult`; `onerror` only logs.
- `new Date().toISOString()` and `toLocaleString`: timestamps are parameters, and the audio list's formatted time is not modelled.
- JSON serialisation: the store holds lists directly, so a malformed stored value (which makes the script throw) cannot arise.
- A second `toggleRecording` during the microphone prompt can start a second session. That is asynchronous interleaving and is not modelled.
- `initLanguage`, `initActiveNav` and `initModals` as DOM walks: their per-element rules are `Language.ElementText`, `Language.ToggleLabel` and `Nav.IsActive`.
- `form.reset()` after a submit: only the content field is part of the page model; it is reset to empty, taken as its default value. The forms' other fields are not modelled.
- The component files (navbar, bottom navigation, footer) are static markup and not part of this model.
- Js.ToLower: lower-cases only `A` to `Z`. The nav labels are English words or, once the page is in Hindi, Devanagari, which has no letter case, so the active-item rule is unaffected.
- Js.Prefix, Js.FirstChar: count code points where JavaScript's `substring` and `charAt` count UTF-16 units.

## Findings

| source | as written | input that shows it | evidently intended | confidence | as-written member | corrected member |
|---|---|---|---|---|---|---|
| script.js:326-341 | `prependStoryToUI` rebuilds the container's HTML, which drops every copy handler set before. It then binds the new story's handler to the FIRST copy button in the container. After `renderRecentStories` appends stories, the top button copies the last story appended and the others copy nothing | two stored stories, A then B: the top card is A, its button copies B, and B's button does nothing | each card's button copies its own story | not executed | Views.CopyBindingAsWritten | Views.RenderRecentStories |
| script.js:326-341 | `prependStoryToUI(story)` for a voice story rebuilds the container's HTML with the new card on top, which drops the handlers of the cards already there; only the new card's button is bound | one card A whose button copies A, then a voice story B: B's button copies B and A's button copies nothing | every card keeps a button that copies its own story | not executed | Views.PrependCounterexample | Views.PrependStoryKeeps |
