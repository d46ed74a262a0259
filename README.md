# Bizwiz agency site: verified model of its stateful pieces

The Bizwiz site is a brochure web app. Almost all of it is markup and
animation. Two pieces keep state and have behaviour worth stating. This
project models both in Dafny and proves their properties.

- **The home page's industry showcase and process stages** (`pages/Home.tsx`),
  in module `Home` (`home.dfy`). The catalogue `INDUSTRIES` holds nine
  `ShowcaseItem`s with ids `"1"` to `"9"`. The class `HomePage` holds the
  component state: `selected` (`selectedIndustry`), `bookingStep` and a count
  of pending reset timers. Its methods model the actions:
  - clicking a card (`Open`);
  - the close button and a backdrop click (`Close`);
  - "Request Case Study" (`RequestCaseStudy`);
  - the arrow buttons (`NavigateIndustry`);
  - the window key handler (`KeyDown`);
  - "Book Strategy" (`HandleBooking`) and its reset timer firing (`BookingTimerFires`).

  `NavigateIndustry` looks up the open item by id with a linear search
  (`FindIndex`, a loop proved equal to `FirstIndex`). It then steps with
  JavaScript's remainder (`JsRem`, `StepIndex`). The pure function `Navigate`
  specifies the result. The lemmas prove these properties:
  - the new selection stays inside the catalogue;
  - next and prev undo each other;
  - next and prev wrap around at the ends;
  - N nexts return to the start;
  - the keys dispatch as intended;
  - at most one stage shows "Opening Mail Client...".
- **The chat-assistant façade** (`services/geminiService.ts`), in module
  `GeminiService` (`gemini_service.dfy`). The class `ChatService` holds:
  - the API key, read once when the module loads;
  - the memoised `chatSession`;
  - a count of sessions constructed;
  - the log of messages forwarded to the remote service.

  `InitializeChat` and `SendMessage` model `initializeChat` and
  `sendMessageToGemini`. The remote library becomes two outcomes that the
  caller supplies. `Creation` says whether constructing the client and chat
  succeeds or throws. `RemoteOutcome` is a reply whose text may be absent, or
  a failure. The class invariant states these facts:
  - at most one session is ever constructed;
  - that session is always built with the fixed model id and system instruction;
  - every forwarded message went through it.

  The pure function `Answer` gives the string a call resolves to.

`wrappers.dfy` holds the `Option` datatype that both modules use.

Three facts about the code that the model keeps:
- The clarification prompt is exactly "I didn't quite catch that. Could you rephrase?".
- `sendMessageToGemini` accepts any message, including an empty one. The
  model does the same.
- There is no guard against overlapping first calls, and none is needed:
  `initializeChat` runs synchronously before the first `await`
  (services/geminiService.ts:45-46). The model is sequential.

## Model

| member | source | states |
|---|---|---|
| Home.IndustriesWellFormed | pages/Home.tsx:77-150 | the catalogue has nine items with ids "1".."9" in order, so it is non-empty and its ids are pairwise distinct |
| Home.FirstIndex | pages/Home.tsx:200 | `findIndex` by id yields -1 exactly when no item has the id, and otherwise the first position holding it |
| Home.FindIndex | pages/Home.tsx:200 | the linear search returns exactly `FirstIndex` of the catalogue and id |
| Home.JsRem | pages/Home.tsx:203-205 | JavaScript `%` by a positive divisor: the remainder is smaller than the divisor in size and has the sign of the dividend; its exact value is stated only for dividends in (-n, 2n), the range navigation uses |
| Home.StepIndex | pages/Home.tsx:201-206 | the next/prev index with JavaScript `%`, even from a "not found" -1, lies in [0, N); from a real index it is the following one (last wraps to 0) or the preceding one (0 wraps to N-1) |
| Home.Navigate | pages/Home.tsx:198-208 | navigation keeps "nothing selected" as nothing, and otherwise always selects an item of the catalogue |
| Home.NavigateTimes | pages/Home.tsx:198-208 | repeated navigation keeps "nothing selected" as nothing and otherwise always selects an item of the catalogue |
| Home.FirstIndexOfMember | pages/Home.tsx:78-149 | with distinct ids, looking an item up by its id returns its own position |
| Home.NavigateFromIndex | pages/Home.tsx:200-207 | next from the item at index i selects the item at (i + 1) % N; prev selects the item at (i - 1 + N) % N |
| Home.WrapsAround | pages/Home.tsx:203-205 | next from the last item selects the first; prev from the first selects the last |
| Home.NextThenPrev | pages/Home.tsx:198-208 | next then prev restores any selection of a catalogue item, and "nothing selected" |
| Home.PrevThenNext | pages/Home.tsx:198-208 | prev then next restores any selection of a catalogue item, and "nothing selected" |
| Home.DuplicateIdsBreakUndo | pages/Home.tsx:200 | the undo property needs distinct ids: in a catalogue [a, b, c] where a and c share an id, from b next then prev ends on c instead of b |
| Home.NextTimes | pages/Home.tsx:203 | m <= N nexts from index k select the item at k + m, wrapping once past the end |
| Home.FullCycle | pages/Home.tsx:203 | N consecutive nexts return to the starting selection |
| Home.NothingSelectedStays | pages/Home.tsx:199 | with nothing selected, any number of navigations leaves nothing selected |
| Home.KeyEffect | pages/Home.tsx:182-187 | a key press never opens the modal, and any selection it makes is a catalogue item unless the key left the selection as it was |
| Home.KeyDispatch | pages/Home.tsx:182-187 | with nothing selected every key is ignored; ArrowLeft is prev, ArrowRight is next, Escape clears, any other key changes nothing |
| Home.ArrowKeysUndo | pages/Home.tsx:184-185 | ArrowRight then ArrowLeft, or ArrowLeft then ArrowRight, returns to the same selection |
| Home.BookingShown | pages/Home.tsx:366-367 | stage i shows "booking" exactly when bookingStep is i, so at most one of the three stages does |
| Home.HomePage.constructor | pages/Home.tsx:177-178 | the page starts with no industry selected and no stage booking, over the nine-item catalogue |
| Home.HomePage.Open | pages/Home.tsx:327-328 | clicking a card selects exactly that card and changes nothing else |
| Home.HomePage.Close | pages/Home.tsx:450-462 | the close button and a backdrop click set the selection to none |
| Home.HomePage.RequestCaseStudy | pages/Home.tsx:530-534 | "Request Case Study" sets the selection to none |
| Home.HomePage.NavigateIndustry | pages/Home.tsx:198-208 | the new selection is `Navigate` of the old one; an open modal stays open on a catalogue item |
| Home.HomePage.KeyDown | pages/Home.tsx:181-190 | the new selection is `KeyEffect` of the old one and the key; ignored when nothing is selected; Escape closes; other keys change nothing |
| Home.HomePage.HandleBooking | pages/Home.tsx:192-196 | bookingStep becomes the clicked stage and one more reset timer is pending; the selection is untouched |
| Home.HomePage.BookingTimerFires | pages/Home.tsx:195 | a pending reset clears bookingStep |
| GeminiService.ApiKey | services/geminiService.ts:8 | an absent environment key reads as the empty string; a present one is kept |
| GeminiService.ReplyText | services/geminiService.ts:47 | non-empty reply text is returned verbatim; absent or empty text gives the clarification prompt; never empty |
| GeminiService.Answer | services/geminiService.ts:39-52 | never empty; the reply text or one of the three fixed strings; offline without a key; apology when init or the send fails |
| GeminiService.CannedStringsDistinct | services/geminiService.ts:41-50 | the offline, clarification and apology strings are pairwise different |
| GeminiService.ChatService.constructor | services/geminiService.ts:8-10 | the key is read once from the environment; no session exists and nothing has been sent |
| GeminiService.ChatService.InitializeChat | services/geminiService.ts:12-37 | a memoised session is returned unchanged without constructing another; otherwise one session with the fixed model and instruction is constructed and memoised, or, on a throw, nothing is memoised |
| GeminiService.ChatService.SendMessage | services/geminiService.ts:39-52 | the reply is `Answer` of the call; without a key it is the offline string and nothing is created or sent; otherwise the message goes through the single session, and a failed creation leaves the session unset so the next call retries |
| GeminiService.OfflineWhateverTheInput | services/geminiService.ts:40-42 | with no key any two messages both get the offline string, and no session is created and nothing is sent |
| GeminiService.RetryAfterFailedCreation | services/geminiService.ts:13-50 | a failed creation gives the apology; the next call creates the session and returns the reply verbatim; later calls reuse it (one session, two sends) and an empty reply gives the clarification prompt |
| GeminiService.FailureKeepsSession | services/geminiService.ts:44-50 | a failing send gives the apology but keeps the session, which the next call reuses |

## Left out

- Rendering, animation, layout and styling of every page and component: they are markup without stated behaviour.
- `SERVICES` and `TESTIMONIALS` (pages/Home.tsx:15-74, 152-171): display data that no operation reads.
- The mail-client side effects of "Book Strategy" and "Request Case Study" (`window.open`, `window.location.href`): browser I/O.
- The two-second `setTimeout` delay: time is not modelled. A reset is the explicit action `BookingTimerFires`, allowed once per scheduled timer. Timers fire in any order the caller chooses.
- Installing and removing the key listener on every selection change (pages/Home.tsx:188-189): `KeyDown` models the handler that is installed for the current selection.
- The remote client library, its network transport and its exact request and response schema: `Creation` and `RemoteOutcome` replace them.
- `console.error` logging of failures: a diagnostic side effect with no effect on the result.
- The asynchronous resolution of `sendMessageToGemini`: the model runs each call to completion. `initializeChat` is synchronous and runs before the first `await`, so overlapping calls cannot construct two sessions.
- `App.tsx` routing and menu state, `components/ThreeDPreview.tsx` (floating-point animation and random particles) and the other components: presentation only.
