# Quran chat PWA: verified model of its page logic

This project models the decision and bookkeeping logic of a Next.js
progressive web app for reading the Quran and learning tajwid. The browser,
network and storage parts are passed in as parameters. The model covers five
parts of the app:

- **Verse list** (`VerseList`): the list of one surah.
  - Verses are filtered by an optional ayat range and shown ten per page.
  - Previous/next navigation is clamped to the page range.
  - Each verse plays its recitation from a `SSSAAA.mp3` file; the `pad` loop is
    kept as a method proved against `padStart`.
  - The tafsir shown for a verse is looked up with a fixed fallback text.
- **Tajwid chat** (`TajwidChat`): the `itajwidmudah` page.
  - Typed input is trimmed and lower-cased, then looked up in the fifteen-entry
    `madCommands` table.
  - The rule id found there selects an image and an audio file from `imageMap`.
    Two HEAD requests, given as a parameter, decide what the reply carries.
  - Menu clicks, the history load, clearing the log and the `MM:SS` formatter
    `formatTime` are modelled as well.
- **Single-rule chat** (`RtmChat`): the `rtm` page. It recognises four spellings
  of Mad Thabi'i and answers every other input as not recognised.
- **Mushaf reader** (`Mushaf`): the `iquran` page. A page counter is guarded to
  1..604, and each page's image file is named by its number padded to three
  digits.
- **Pre-cache flow** (`PreCache`): the root layout's offline pre-cache dialog, a
  small state machine.
  - The dialog opens on the not-installed to installed edge unless the
    persistent `hasPreCached` flag is set.
  - A service-worker progress report of 100 closes the dialog and sets the flag.

Three modules are shared by the others:
- `Wrappers` holds `Option` and `Array.prototype.find`.
- `Text` holds `String(n)`, `padStart` and the value of a digit string.
- `ChatText` holds the message record, `trim` and `toLowerCase`.

Each component's state is a class whose methods are the component's event
handlers. Each method states the new state in terms of pure specification
functions, and lemmas prove the properties the page relies on.

## Model

| member | source | states |
|---|---|---|
| `Wrappers.FirstIndex` | app/components/VerseList.tsx:186 | The index found is the first element satisfying the predicate; None exactly when no element does. |
| `Wrappers.Find` | app/components/VerseList.tsx:186 | `find` returns the first element of the list satisfying the predicate: no element before it satisfies it, and something is returned exactly when some element does. |
| `Text.Digits` | app/components/VerseList.tsx:99 | `String(n)` is a non-empty string of decimal digits, with a leading zero only for 0. |
| `Text.ValueOfDigits` | app/components/VerseList.tsx:99 | Reading `String(n)` back as a decimal number gives `n`. |
| `Text.PadStart` | app/iquran/page.tsx:33 | `padStart(size, '0')` has length the larger of `size` and the length of `s`, ends with `s`, and everything before `s` is '0'. |
| `Text.PaddedValue` | app/components/VerseList.tsx:98-102 | A zero-padded rendering of `n` is all digits and still reads back as `n`. |
| `Text.FixedWidth` | app/components/VerseList.tsx:98-102 | For `n < 10^k`, padding `String(n)` to `k` gives exactly `k` digits reading back as `n`. |
| `ChatText.TrimStart` | app/itajwidmudah/page.tsx:291 | Removes exactly the leading white space: the result is a suffix, everything removed is white space, and the result does not start with white space. |
| `ChatText.TrimEnd` | app/itajwidmudah/page.tsx:291 | Removes exactly the trailing white space, symmetrically. |
| `ChatText.Trim` | app/itajwidmudah/page.tsx:291 | `trim()`: the trailing trim of the leading trim. `TrimEmptyIffBlank`, `TrimPadded` and `TrimIsTrimmed` state what it removes and leaves. |
| `ChatText.TrimEmptyIffBlank` | app/itajwidmudah/page.tsx:291 | `trim()` is empty exactly when every character is white space, which is the blank-input guard. |
| `ChatText.TrimPadded` | app/itajwidmudah/page.tsx:293 | White space around a text with non-white edges is exactly what `trim` removes. |
| `ChatText.ToLower` | app/itajwidmudah/page.tsx:293 | `toLowerCase()` character by character, keeping the length; `ToLowerLower` proves the result has no ASCII capital and is its own lower case. |
| `ChatText.Normalise` | app/itajwidmudah/page.tsx:293 | `input.trim().toLowerCase()`, shared by both chat pages; `NormaliseIdempotent` proves it idempotent and free of ASCII capitals, and `RtmChat.RecognisedDespitePadding` that surrounding white space does not matter. |
| `ChatText.NormaliseIdempotent` | app/itajwidmudah/page.tsx:293 | `trim().toLowerCase()` leaves no upper-case letter, and normalising again changes nothing. |
| `ChatText.LowerCharLower` | app/itajwidmudah/page.tsx:293 | A lowered character, U+212A KELVIN SIGN included, is no upper-case ASCII letter, and lowering it again keeps it. |
| `VerseList.Between` | app/components/VerseList.tsx:53 | The filter keeps a verse exactly when it is in the list with `lo <= ayat <= hi`, and never grows the list. |
| `VerseList.BetweenAppend` | app/components/VerseList.tsx:53 | Filtering distributes over concatenation, so the original order is kept. |
| `VerseList.BetweenKeepsInRange` | app/components/VerseList.tsx:53 | A list already inside the range is returned unchanged. |
| `VerseList.RangeFilter` | app/components/VerseList.tsx:52-54 | With both bounds truthy, membership is exactly the inclusive range; otherwise the list is unchanged. |
| `VerseList.PageCountAsWritten` | app/components/VerseList.tsx:56 | `ceil(n/10)`: the smallest `r` with `n <= 10r`, which is 0 exactly for an empty list. |
| `VerseList.TotalPages` | app/components/VerseList.tsx:45-61 | Never below 1, and equal to `ceil(n/10)` for a non-empty list. |
| `VerseList.SliceIndex` | app/components/VerseList.tsx:129 | A `slice` argument lands within `[0, len]`, and at `min(i, len)` when non-negative. |
| `VerseList.Slice` | app/components/VerseList.tsx:129 | `Array.prototype.slice` with both arguments normalised by `SliceIndex`, empty when they cross; `PageVerses`, `PagesCoverList` and `PagesInRangeNonEmpty` state what it yields for a page. |
| `VerseList.PageVerses` | app/components/VerseList.tsx:126-130 | `displayedVerses` has at most 10 verses, is empty for an empty list, and is the window `[(p-1)*10, p*10)` clipped to the list. |
| `VerseList.PagesCoverList` | app/components/VerseList.tsx:126-130 | Pages 1 to the last, concatenated, give back the whole list, under both page counts. |
| `VerseList.PagesInRangeNonEmpty` | app/components/VerseList.tsx:126-130 | Every page up to the last holds a verse when there are verses; pages beyond it are empty. |
| `VerseList.NavigationStaysInRange` | app/components/VerseList.tsx:214-230 | With at least one page, Previous and Next stay in `[1, total]`, and each undoes the other away from the ends. |
| `VerseList.EmptyRangeAsWritten` | app/components/VerseList.tsx:52-56 | A range matching no verse gives a page count of 0; page 1 is then outside `[1, 0]` and Next moves to page 0. |
| `VerseList.PreviousPage` | app/components/VerseList.tsx:216 | `Math.max(1, p - 1)`; `NavigationStaysInRange` proves it stays in `[1, total]` and undoes `NextPage` away from the last page. |
| `VerseList.NextPage` | app/components/VerseList.tsx:226 | `Math.min(totalPages, p + 1)`; `NavigationStaysInRange` proves it stays in `[1, total]` and undoes `PreviousPage` away from the first page. |
| `VerseList.Pad` | app/components/VerseList.tsx:98-102 | The prepend-"0" loop computes `String(num).padStart(size, '0')`. |
| `VerseList.AudioFileNameShape` | app/components/VerseList.tsx:103-105 | For surah and ayah in 1..999 the name is 10 characters: six digits reading back as surah then ayah, then ".mp3". |
| `VerseList.AudioFileNameInjective` | app/components/VerseList.tsx:103-105 | Distinct (surah, ayah) pairs get distinct file names. |
| `VerseList.AudioFileName` | app/components/VerseList.tsx:103-105 | The recitation file: surah and ayah each padded to three digits, then ".mp3"; `AudioFileNameShape` proves both numbers read back from it and `AudioFileNameInjective` that it identifies the verse. |
| `VerseList.AudioUrl` | app/components/VerseList.tsx:103-105 | The recitation URL, the everyayah base followed by the file name; `AudioUrlInjective` proves that different verses get different URLs, and `VerseListView.Play` sets the element to it. |
| `VerseList.AudioUrlInjective` | app/components/VerseList.tsx:103-105 | Distinct (surah, ayah) pairs in 1..999 get distinct recitation URLs. |
| `VerseList.TafsirText` | app/components/VerseList.tsx:185-190 | The text of the first entry for the ayat, or 'Tafsir tidak tersedia.' when there is none. |
| `VerseList.PressPlay` | app/components/VerseList.tsx:93-111 | `handlePlay`'s effect on the playing verse: pressing it stops it, pressing another starts it only when the audio element exists; `VerseListView.Play` is proved to follow it, and `EndedListenerAsWritten` and `ReplayAfterEnded` use it. |
| `VerseList.VerseListView.constructor` | app/components/VerseList.tsx:23-31 | Initial state: page 1 of 1, no verses, loading, nothing playing, no tafsir. |
| `VerseList.VerseListView.Displayed` | app/components/VerseList.tsx:126-130 | The current page shows at most 10 verses, and is empty only when the whole list is. |
| `VerseList.VerseListView.Load` | app/components/VerseList.tsx:33-68 | Back to page 1; the filtered verses of a found surah, or none for a missing surah or a failed fetch; the audio element is replaced by a fresh, paused one with no source while the playing verse stays set; tafsir untouched. |
| `VerseList.VerseListView.LoadTafsir` | app/components/VerseList.tsx:82-91 | The list is cleared, then set from the fetch unless the surah number is 0 or the fetch failed. |
| `VerseList.VerseListView.Previous` | app/components/VerseList.tsx:216 | The page becomes `max(1, p-1)` and stays valid; when the page changes, the re-fetch leaves a fresh, paused audio element with no source; when it does not, the audio element is kept. |
| `VerseList.VerseListView.Next` | app/components/VerseList.tsx:226 | The page becomes `min(totalPages, p+1)` and stays valid; when the page changes, the re-fetch leaves a fresh, paused audio element with no source; when it does not, the audio element is kept. |
| `VerseList.VerseListView.PreviousDisabled` | app/components/VerseList.tsx:217 | Disabled exactly when Previous would not change the page. |
| `VerseList.VerseListView.NextDisabled` | app/components/VerseList.tsx:227 | Disabled exactly when Next would not change the page. |
| `VerseList.VerseListView.Play` | app/components/VerseList.tsx:93-111 | Pressing the playing verse stops it; pressing another verse plays its `SSSAAA.mp3` URL only when the audio element exists, and otherwise changes nothing. |
| `VerseList.EndedListenerAsWritten` | app/components/VerseList.tsx:114-123 | As written, a verse played to its end still counts as playing, and pressing it again pauses instead of playing it. |
| `VerseList.EndedAsWritten` | app/components/VerseList.tsx:114-123 | The playing verse after an `ended` event as written: unchanged when the list was loading at the first commit (the listener was never attached), cleared otherwise; `EndedListenerAsWritten` states the consequence. |
| `VerseList.Ended` | app/components/VerseList.tsx:118 | The listener's own body, `setPlayingAyah(null)`: after the end nothing is playing; `ReplayAfterEnded` proves that any verse can then be played again. |
| `VerseList.ReplayAfterEnded` | app/components/VerseList.tsx:93-123 | As intended, once a recitation has ended nothing is playing, and pressing any verse plays it. |
| `VerseList.VerseListView.AudioEnded` | app/components/VerseList.tsx:114-123 | When a recitation ends the element pauses, but the playing verse is kept: no `ended` listener is ever attached. |
| `VerseList.VerseListView.ShowTafsir` | app/components/VerseList.tsx:185-191 | The pop-up shows the ayat with its looked-up tafsir text. |
| `VerseList.VerseListView.CloseTafsir` | app/components/VerseList.tsx:243 | The pop-up is closed. |
| `TajwidChat.ClockSpec` | app/itajwidmudah/page.tsx:47-51 | A clock text is at least two minute digits, ':', then two second digits, each reading back as its field; five characters exactly when minutes < 100. |
| `TajwidChat.FormatTimeSpec` | app/itajwidmudah/page.tsx:47-51 | `formatTime(s)` has two seconds digits equal to `s % 60 < 60` and minutes digits equal to `s / 60`, and is five characters exactly when `s < 6000`. |
| `TajwidChat.FormatTime` | app/itajwidmudah/page.tsx:47-51 | Minutes and seconds, each padded to two digits, around a colon; `FormatTimeSpec` states its shape and that both fields read back. |
| `TajwidChat.Clock` | app/itajwidmudah/page.tsx:47-51 | Two zero-padded fields around a colon; `ClockSpec` proves it is a clock text whose fields read back as the minutes and seconds. |
| `TajwidChat.FindEntry` | app/itajwidmudah/page.tsx:322-324 | The entry found is the first in the table whose lowered key equals the message; nothing is found exactly when no lowered key equals it. |
| `TajwidChat.FindEntryLowerKeys` | app/itajwidmudah/page.tsx:322-324 | In any table whose keys are already lower case, an entry is found exactly when some key equals the message; the entry found has that key and is the first entry with it. |
| `TajwidChat.CommandKeysLowerCase` | app/itajwidmudah/page.tsx:322-324 | Lower-casing each table key leaves it unchanged, so matching compares against the keys as written. |
| `TajwidChat.MatchMadCommandSpec` | app/itajwidmudah/page.tsx:303-327 | A normalised message is recognised exactly when it is one of the fifteen keys, and the id returned is the one written beside the first entry with that key. |
| `TajwidChat.MatchMadCommand` | app/itajwidmudah/page.tsx:322-327 | The id beside the first table key whose lower case equals the message; `MatchMadCommandSpec` states when it exists and which it is. |
| `TajwidChat.CommandTablesAgree` | app/itajwidmudah/page.tsx:189-250 | Every `madCommands` value and every submenu id is a key of `imageMap`, and every key of `imageMap` is a submenu id. |
| `TajwidChat.RecognisedCommandsHaveMedia` | app/itajwidmudah/page.tsx:252-265 | A recognised command's id is in `imageMap`, so with a successful image check its reply carries the table's image. |
| `TajwidChat.BotReplySpec` | app/itajwidmudah/page.tsx:252-283 | The reply has an image exactly when the id is known and the image check succeeded, and audio exactly when it also has an image and the audio check succeeded; the image and audio URLs are the id's own `imageMap` entry and the text is "Berikut adalah penjelasan " and the label; otherwise it is 'Data belum ada'. |
| `TajwidChat.BotReply` | app/itajwidmudah/page.tsx:252-283 | The bot line of `handleCommand` from `imageMap` and the two HEAD outcomes; `BotReplySpec` and `RecognisedCommandsHaveMedia` state when it carries an image and audio. |
| `TajwidChat.Echo` | app/itajwidmudah/page.tsx:182-185 | The user line `handleCommand` adds, "Mad Thabi'i" for "1" and the command otherwise; `RuleIdNotOne` proves a rule id is echoed as it is. |
| `TajwidChat.RuleIdNotOne` | app/itajwidmudah/page.tsx:182-185 | No rule id of the command table is "1", so echoing it leaves it unchanged. |
| `TajwidChat.CommandMessages` | app/itajwidmudah/page.tsx:178-283 | `handleCommand`'s two appended messages, the echo and the reply; `SendMessagesSpec` and `BotReplySpec` state them for typed commands. |
| `TajwidChat.SendMessages` | app/itajwidmudah/page.tsx:297-335 | The messages `handleSend` appends; `SendMessagesSpec` states their number and contents case by case. |
| `TajwidChat.SendMessagesSpec` | app/itajwidmudah/page.tsx:297-335 | Sending appends the typed text first; for a table key, three messages in all: the rule id echoed as it is, then `handleCommand`'s reply for that id; for any other text, two messages ending with the not-recognised reply. |
| `TajwidChat.MenuPromptSpec` | app/itajwidmudah/page.tsx:120-175 | The eight known menu ids get their "Silakan pilih jenis" prompt; exactly the other ids get the in-development reply. |
| `TajwidChat.MenuPrompt` | app/itajwidmudah/page.tsx:112-176 | The prompt of `handleMenuClick`'s switch, with the in-development reply as default; `MenuPromptSpec` states which ids get which. |
| `TajwidChat.CapitaliseFirstMadSpec` | app/itajwidmudah/page.tsx:262 | `replace(/mad/i, 'Mad')` keeps the length and introduces no dash. |
| `TajwidChat.LabelSpec` | app/itajwidmudah/page.tsx:262 | The reply label keeps the id's length, has no dashes, and starts with "Mad" for every id beginning with "mad". |
| `TajwidChat.Label` | app/itajwidmudah/page.tsx:262 | `command.replace(/-/g, ' ').replace(/mad/i, 'Mad')`; `LabelSpec` and `CapitaliseFirstMadSpec` state its length, that it has no dash, and its "Mad" prefix. |
| `TajwidChat.DashesToSpaces` | app/itajwidmudah/page.tsx:262 | `replace(/-/g, ' ')`: every dash becomes a space and nothing else changes; `LabelSpec` proves the label keeps the length and has no dash. |
| `TajwidChat.CapitaliseFirstMad` | app/itajwidmudah/page.tsx:262 | `replace(/mad/i, 'Mad')`: the first "mad" in any case becomes "Mad"; `CapitaliseFirstMadSpec` proves it keeps the length and adds no dash. |
| `TajwidChat.Chat.constructor` | app/itajwidmudah/page.tsx:31-43 | Initial state: empty log with the history still loading, menu hidden, nothing selected, empty input. |
| `TajwidChat.Chat.LoadHistory` | app/itajwidmudah/page.tsx:54-82 | A saved log is kept only if it parsed to a non-empty array; otherwise the log is the single welcome message; loading ends. |
| `TajwidChat.Chat.SetInput` | app/itajwidmudah/page.tsx:609 | The text box holds the typed text. |
| `TajwidChat.Chat.ToggleMenu` | app/itajwidmudah/page.tsx:614 | The menu panel's visibility flips. |
| `TajwidChat.Chat.MenuClick` | app/itajwidmudah/page.tsx:112-176 | Selects the menu, hides the panel, and appends exactly the click and one prompt. |
| `TajwidChat.Chat.BackToMainMenu` | app/itajwidmudah/page.tsx:569 | No menu is selected. |
| `TajwidChat.Chat.Command` | app/itajwidmudah/page.tsx:178-287 | Appends the echoed command and the reply the HEAD checks allow; loading is false afterwards. |
| `TajwidChat.Chat.Send` | app/itajwidmudah/page.tsx:289-339 | Blank input, or input while loading, changes nothing; otherwise the log grows by the messages for the normalised input, the box empties and loading ends. |
| `TajwidChat.Chat.Answer` | app/itajwidmudah/page.tsx:297-339 | Appends the typed line, then the matched command's messages or the not-recognised reply. |
| `TajwidChat.Chat.ClearHistory` | app/itajwidmudah/page.tsx:593-600 | The log is exactly the single welcome message and no menu is selected. |
| `RtmChat.SendMessagesSpec` | app/rtm/page.tsx:118-130 | Three messages exactly for the four recognised inputs: the typed text, "Mad Thabi'i", then the reply with the rule's image. Any other input gets the typed text and the not-recognised reply. |
| `RtmChat.Recognised` | app/rtm/page.tsx:121-124 | The four normalised spellings `handleSend` answers with the Mad Thabi'i command; `SendMessagesSpec`, `RecognisedDespitePadding` and `KelvinSignRecognised` state what follows from it. |
| `RtmChat.CommandMessages` | app/rtm/page.tsx:80-98 | `handleCommand`'s echo and image reply; `SendMessagesSpec` states that "1" is echoed as "Mad Thabi'i" and the reply is the bot's. |
| `RtmChat.SendMessages` | app/rtm/page.tsx:112-132 | The messages `handleSend` appends; `SendMessagesSpec` states them for recognised and other inputs. |
| `RtmChat.RecognisedDespitePadding` | app/rtm/page.tsx:113 | White space around the typed text does not affect recognition; only its lower-cased core is compared. |
| `RtmChat.KelvinSignRecognised` | app/rtm/page.tsx:113-122 | A spelling written with U+212A KELVIN SIGN for 'k' lowers to "mad 2 harakat" and is recognised. |
| `RtmChat.Chat.constructor` | app/rtm/page.tsx:29-35 | The log starts as the single welcome message, not loading, with empty input. |
| `RtmChat.Chat.SetInput` | app/rtm/page.tsx:223 | The text box holds the typed text. |
| `RtmChat.Chat.Command` | app/rtm/page.tsx:80-107 | Appends "Mad Thabi'i" (for "1") and the reply with the fixed image; loading ends. |
| `RtmChat.Chat.Send` | app/rtm/page.tsx:109-134 | Blank input, or input while loading, changes nothing; otherwise the old log is kept as a prefix, the messages for the normalised input are appended, and loading is false again. |
| `RtmChat.Chat.Answer` | app/rtm/page.tsx:117-133 | Appends the typed line, then the command's two messages or the not-recognised reply. |
| `RtmChat.Chat.ClearHistory` | app/rtm/page.tsx:208-214 | The log is exactly the single welcome message. |
| `Mushaf.ReplayStaysInRange` | app/iquran/page.tsx:9-16 | From a page in 1..604, any series of page requests stays in 1..604. |
| `Mushaf.Replay` | app/iquran/page.tsx:9-16 | The page after a series of `handlePageChange` requests; `ReplayStaysInRange` proves it never leaves 1..604. |
| `Mushaf.NextThenPrevious` | app/iquran/page.tsx:11-16 | For pages 1..603, Next then Previous returns to the starting page. |
| `Mushaf.Requested` | app/iquran/page.tsx:11-16 | `handlePageChange`'s guard: the result is the request or the current page, and a page in 1..604 stays in 1..604. |
| `Mushaf.PageImageNameShape` | app/iquran/page.tsx:33 | For pages 1..604 the name is three digits reading back as the page, then ".png". |
| `Mushaf.PageImageNameInjective` | app/iquran/page.tsx:33 | Different pages have different image files. |
| `Mushaf.PageImageName` | app/iquran/page.tsx:33 | `String(page).padStart(3, '0') + ".png"`; `PageImageNameShape` proves it is three digits reading back as the page, and `PageImageNameInjective` that it identifies the page. |
| `Mushaf.PageImageUrl` | app/iquran/page.tsx:33 | The image URL, the image base followed by the file name; `PageImageUrlInjective` proves that different pages load different images. |
| `Mushaf.PageImageUrlInjective` | app/iquran/page.tsx:33 | Different pages in 1..604 have different image URLs. |
| `Mushaf.Reader.constructor` | app/iquran/page.tsx:9 | The reader starts on page 1. |
| `Mushaf.Reader.ChangePage` | app/iquran/page.tsx:11-16 | The page becomes the requested one exactly when it is in 1..604; otherwise it is unchanged. |
| `Mushaf.Reader.Previous` | app/iquran/page.tsx:43 | Requests the page before, through the same guard. |
| `Mushaf.Reader.Next` | app/iquran/page.tsx:57 | Requests the page after, through the same guard. |
| `Mushaf.Reader.PreviousDisabled` | app/iquran/page.tsx:44 | Disabled exactly when the request would leave the page unchanged, which is page 1. |
| `Mushaf.Reader.NextDisabled` | app/iquran/page.tsx:58 | Disabled exactly when the request would leave the page unchanged, which is page 604. |
| `PreCache.CheckOpensOnlyOnInstallEdge` | app/layout.tsx:32-56 | A check opens the dialog only on the not-installed to installed edge with no truthy flag, and that edge always opens it; the installed state becomes the detection result. |
| `PreCache.IsInstalled` | app/layout.tsx:34-45 | Installed means standalone display, or an iOS user agent without `MSStream` whose navigator is standalone, or fullscreen, or minimal-ui display; `CheckOpensOnlyOnInstallEdge` uses it for the edge. |
| `PreCache.Check` | app/layout.tsx:32-56 | `checkPWAInstallation`'s state change; `CheckOpensOnlyOnInstallEdge` states when it opens the dialog, and `StepKeepsConsistent` that it never does so while the flag is set. |
| `PreCache.OnMessageSpec` | app/layout.tsx:85-94 | Other message types change nothing; CACHE_PROGRESS stores the progress, and exactly 100 also ends the download, closes the dialog and stores 'true'. |
| `PreCache.OnMessage` | app/layout.tsx:85-94 | The service-worker listener's state change; `OnMessageSpec` states it case by case, and `StepKeepsConsistent` that it never clears a set flag. |
| `PreCache.StepKeepsConsistent` | app/layout.tsx:44-94 | No event opens the dialog while the flag is set, and no event clears a set flag. |
| `PreCache.OnceCachedNeverReopens` | app/layout.tsx:51-53 | Once the flag is set, no sequence of events ever opens the dialog again. |
| `PreCache.StartCaching` | app/layout.tsx:103-104 | `handlePreCache`'s state change, which only starts the download; `Layout.PreCache` follows it and `StepKeepsConsistent` covers it. |
| `PreCache.Close` | app/layout.tsx:117 | The dialog's `onClose`, which only closes it; `Layout.CloseDialog` follows it and `StepKeepsConsistent` covers it. |
| `PreCache.Step` | app/layout.tsx:32-117 | One event's effect on the layout: a display check, a worker message, confirm or dismiss; `StepKeepsConsistent` proves every event keeps the dialog closed while the flag is set. |
| `PreCache.Run` | app/layout.tsx:32-117 | The state after a series of events; `OnceCachedNeverReopens` proves that once the flag is set the dialog never reopens. |
| `PreCache.Layout.constructor` | app/layout.tsx:25-28 | All flags start false and progress 0, with whatever the storage holds. |
| `PreCache.Layout.CheckInstallation` | app/layout.tsx:32-56 | Updates the state as the installation check prescribes, keeping the invariant. |
| `PreCache.Layout.HandleWorkerMessage` | app/layout.tsx:85-94 | Updates the state as the message rule prescribes. |
| `PreCache.Layout.PreCache` | app/layout.tsx:103-108 | The download starts, and START_CACHING is sent exactly when a controller exists. |
| `PreCache.Layout.CloseDialog` | app/layout.tsx:117 | The dialog closes and nothing else changes. |
| `PreCache.Layout.DialogOpen` | app/layout.tsx:114-122 | The dialog is on screen exactly when it is open and the app runs installed, and never while the flag is set. |

## Left out

- Rendering, styling, scrolling, images' load errors and the theme: these are UI and do not decide anything the model states.
- Network and storage are parameters, not effects:
  - the fetches of `/data/verse.json`, the tafsir API, the chapter-name API and the HEAD checks on the image and audio files;
  - `localStorage` reads;
  - the display-mode media queries and the service worker's messages and controller.
- Writing the chat logs back to `localStorage` after every change is not modelled. The chapter name fetched for the verse list's header is not modelled either.
- JSON parsing is an input. For the tajwid page, the outcome of `JSON.parse` is one of four cases. The rtm page's history load (app/rtm/page.tsx:47-53) is not modelled, because it throws on malformed JSON rather than handling it.
- Each event handler runs to completion before the next. The interleavings that `await` and React's batched state updates allow are not modelled. Neither is the tajwid page's mix of a message snapshot and functional updates.
- Audio playback on the tajwid page is not modelled: its progress bar, seeking and durations use floating-point ratios and media-element events. `formatTime` is modelled on whole, non-negative seconds only.
- The install prompt (`beforeinstallprompt`), the mobile user-agent test, service-worker registration and the announcement redirect are not modelled: they are browser API orchestration.
- `TajwidChat.Chat.Command` models a thrown HEAD request as one outcome, `RequestFailed`. It does not distinguish which request threw.
- `RtmChat.Chat.Command` does not model its `catch` branch: nothing in its `try` block can throw.
- `ChatText.ToLower` lower-cases the ASCII letters and U+212A KELVIN SIGN (to 'k'), the only characters whose lower case is a single ASCII letter. JavaScript's `toLowerCase` also maps other scripts, and it can change the length (U+0130 becomes 'i' and a combining dot). Those mappings are not modelled. They cannot change which input is recognised, because every table key and recognised input is ASCII and their lower cases are never all ASCII. They do change the echoed line: both chats echo the normalised input (app/itajwidmudah/page.tsx:293, 298; app/rtm/page.tsx:113, 118), so for input such as "É" or "İ" the model's `UserText(Normalise(...))` keeps the character where JavaScript's lower case would differ.
- `TajwidChat.BotReply` does not model keys inherited from `Object.prototype` in `imageMap` (for instance "constructor"). Typed input never reaches them, because it only passes ids from the command table. A submenu button passes only its own id.
- `VerseList.Verse` takes ayat numbers as natural numbers; the verse data's numbers are positive.
- `VerseList.Pad` takes a natural number, and so does the surah number of `VerseList.VerseListView`: the page only pads positive surah and verse numbers. The source's `pad` also accepts negative and fractional numbers (`String(-1)` is "-1", padded to "0-1"); those are not modelled.
- `PreCache.WorkerMessage` carries whole-number progress. A worker may post fractional progress before the `=== 100` test; the model treats progress as an integer, which changes nothing the model states, because only the value 100 acts.
- `VerseList.VerseListView.Load` resets to page 1 on every load. In the page the reset is a separate effect (app/components/VerseList.tsx:33-35) whose dependencies leave out `currentPage`.
- `VerseList.VerseListView.Load` sets the page count to the corrected `TotalPages` (1 for a range that matches no verse), not the 0 of app/components/VerseList.tsx:56. The as-written count lives only in `PageCountAsWritten` and `EmptyRangeAsWritten`.
- `VerseList.VerseListView.Previous` and `Next` change the page and, like `Load`, replace the audio element with a fresh one that has no source, keeping `playingAyah`. When the page does not change (React skips setting the same value, and the buttons are disabled then anyway), they keep the audio element. In the page the fetch effect depends on `currentPage` (app/components/VerseList.tsx:68), so every page change fetches the verse file again: `loading` goes true and back to false, and `verses` and `totalPages` are set again without a page reset. The model assumes the re-fetch returns the same list and does not show the `loading` flip. A failed re-fetch, which leaves one page while the current page may be larger, is not modelled.
- `VerseList.VerseListView.AudioEnded` and `Play` model the audio element's paused flag, not its playback.
- `VerseList.Ended` and `VerseList.ReplayAfterEnded`, the corrected half of the second finding, are not used by the class: the class keeps the page's behaviour as written, where the `ended` event leaves the playing verse set.

## Findings

| source | as written | input that shows it | evidently intended | confidence | as-written member | corrected member |
|---|---|---|---|---|---|---|
| app/components/VerseList.tsx:56 | `Math.ceil(ayatList.length / 10)` gives 0 pages when the range filter matches no verse. The page then reads "Halaman 1 dari 0", Next stays enabled (1 !== 0), and pressing it sets the page to `min(0, 2) = 0`. | a surah with verse 1 only, `startAyat = 5`, `endAyat = 7` | At least one (empty) page, as the missing-surah path already sets with `setTotalPages(1)` | not executed | `VerseList.EmptyRangeAsWritten` | `VerseList.TotalPages` |
| app/components/VerseList.tsx:114-123 | The `ended` listener is added by an effect with no dependencies. It runs once, after the first commit, while `loading` is still true, so the `<audio>` element (rendered only when not loading, line 232) is absent, and the effect returns at line 116 without adding it. A recitation that ends leaves `playingAyah` set. | press the play button of verse 1 and let it finish; press it again | The end of a recitation clears `playingAyah`, so the next press plays the verse again | not executed | `VerseList.EndedListenerAsWritten` | `VerseList.ReplayAfterEnded` |
