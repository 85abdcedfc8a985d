# Sproutly screen logic in Dafny

Sproutly is a gardening-assistant mock-up. It is one React component file,
`new.jsx`, and most of that file is markup and inline styles. This project
models the state logic inside it and proves what that logic promises:

- **Chatbot** (`chatbot.dfy`). The canned-reply classifier `getBotReply` is a
  pure function. It lower-cases the text, then tries the keywords in a fixed
  order: "soil", then "water", then "disease" or "sick", then "plant". If none
  occurs, it returns a random one of five defaults. Its reference definition
  is a rule table (`Rules`, `FirstMatch`). The chat panel is a class. It has
  the message list, the input field, and the queue of reply timers still
  pending. `sendMessage` and the delayed reply are two methods of that class.
- **Marketplace sell form** (`marketplace.dfy`). The submit check is a
  function (`ValidateSell`). The form state and the user's listings form a
  class, whose methods are the image picker handler and `handleSellSubmit`.
- **Loading screen** (`loading.dfy`). This is the plant-fact rotation and the
  "Sproutly" typewriter. Each timer firing is a step method. A step can only
  be taken while its timer is armed. Ghost time stamps record the moment at
  which `onFinish` can fire.
- **App shell** (`shell.dfy`). This covers the active navigation tab, the
  dark-mode flag and its palette, the loading gate, and the two Home-tab
  image previews.
- **JavaScript strings** (`text.dfy`). These are `trim`, `toLowerCase` and
  `includes`, on which the rest depends.

Several inputs to the model come from outside the component. Each is a
parameter:

- The random default-reply index is `pick`, which must be below 5.
- The `Date.now()` identifiers are ids chosen by the caller.
- `URL.createObjectURL(file)` is an opaque `ObjectUrl`.
- A chosen file is an `Option<FileRef>`. Both opaque types live in `browser.dfy`.

## Model

| member | source | states |
|---|---|---|
| Text.LeadingBlanks | new.jsx:316 | the count is a blank prefix of `s`, and the next code point, if any, is not whitespace |
| Text.TrailingBlanks | new.jsx:316 | the count is a blank suffix of `s`, and the code point before it, if any, is not whitespace |
| Text.Trim | new.jsx:316-317 | `trim()` is empty exactly when the text is all whitespace; otherwise it neither starts nor ends with whitespace |
| Text.TrimEnds | new.jsx:316-317 | removing the leading and then the trailing whitespace run gives these two end properties |
| Text.TrimIsInfix | new.jsx:317 | `trim()` keeps a contiguous window of the text and removes only whitespace on either side of it |
| Text.TrimWindow | new.jsx:317 | the kept window lies in the original text, and only whitespace follows it |
| Text.TrimNoop | new.jsx:317 | a text that neither starts nor ends with whitespace is its own trim |
| Text.TrimIdempotent | new.jsx:317 | trimming twice is trimming once |
| Text.LowerChar | new.jsx:292 | ASCII capitals move up by 32, the Kelvin sign becomes `k`, and any other code point is left alone |
| Text.ToLower | new.jsx:292 | `toLowerCase()` keeps the length and lower-cases code point by code point |
| Text.ToLowerIdempotent | new.jsx:292 | lower-casing twice is lower-casing once |
| Text.ToLowerAppend | new.jsx:292 | lower-casing distributes over concatenation |
| Text.Contains | new.jsx:293 | `includes(pat)` holds exactly when `pat` occurs at some index of the text |
| Text.OccursShift | new.jsx:293 | an occurrence at index k > 0 is an occurrence at k - 1 in the text without its first code point |
| Text.ContainsInContext | new.jsx:293 | text added before and after an occurrence does not hide it |
| Chatbot.FirstMatch | new.jsx:291-311 | it gives no reply exactly when no rule fires; a reply it gives belongs to a rule that fires when no earlier rule does |
| Chatbot.GetBotReply | new.jsx:291-313 | the if-chain on the lower-cased text equals the rule-table definition `ReplyByRules` |
| Chatbot.RulesInOrder | new.jsx:293-304 | the rule table, tried in order, is the chain soil, water, disease or sick, plant |
| Chatbot.OneKeyword | new.jsx:293-304 | a one-keyword rule fires exactly when its keyword occurs |
| Chatbot.RepliesDistinct | new.jsx:293-311 | the four canned replies differ from each other and from every default |
| Chatbot.ReplyPriority | new.jsx:291-313 | each reply is given if and only if its keyword occurs and no earlier keyword does; a default is given exactly when no keyword occurs |
| Chatbot.ReplyIgnoresPickOnKeyword | new.jsx:305-312 | the random pick plays no part once some keyword matched |
| Chatbot.ReplyIgnoresCase | new.jsx:292 | texts with the same lower case get the same reply |
| Chatbot.SoilMentionWins | new.jsx:292-295 | "soil" in any casing, anywhere in the message, gets the soil reply, even beside "water" |
| Chatbot.SoilQuestionExample | new.jsx:293-295 | "I have soil problems" gets the soil reply |
| Chatbot.CountAppend | new.jsx:317-323 | appending a message adds one to its sender's count and to no other count |
| Chatbot.ChatPanel.constructor | new.jsx:279-282 | the list starts as the single greeting, and the input starts empty |
| Chatbot.ChatPanel.SetInput | new.jsx:394 | the input field takes the typed text |
| Chatbot.ChatPanel.SendMessage | new.jsx:315-320 | blank input changes nothing; otherwise one trimmed user message is appended, the input is cleared and the untrimmed input's reply is queued |
| Chatbot.ChatPanel.DeliverReply | new.jsx:320-324 | the oldest pending timer appends exactly one bot message, `getBotReply` of the captured input |
| Chatbot.ConversationOnlyGrows | new.jsx:279-281 | any send followed by a delivery leaves the old list as a prefix, with the greeting first |
| Chatbot.SoilConversation | new.jsx:315-325 | a soil question adds its trimmed text, then the soil tip, and nothing else |
| Chatbot.MentionNotBlank | new.jsx:316 | text containing a keyword is not blank, so it is sent |
| Chatbot.BlankMessageIgnored | new.jsx:316 | a whitespace-only message leaves the list, the queue and the field as they were |
| Marketplace.ValidateSell | new.jsx:516-526 | the form is accepted exactly when the name is non-blank, the price is non-blank and a file is chosen; the listing then carries the trimmed fields and the preview URL |
| Marketplace.SellForm.constructor | new.jsx:496-502 | no listings, empty fields, no image, and the Buy tab |
| Marketplace.SellForm.SetSellName | new.jsx:894 | the name field takes the typed text |
| Marketplace.SellForm.SetSellPrice | new.jsx:920 | the price field takes the typed text |
| Marketplace.SellForm.SelectMarketTab | new.jsx:779-799 | the Buy/Sell switch selects the pressed tab |
| Marketplace.SellForm.HandleSellImageChange | new.jsx:504-513 | a chosen file is kept with its URL; clearing the picker clears both |
| Marketplace.SellForm.HandleSellSubmit | new.jsx:514-532 | an incomplete form changes nothing; a complete one appends exactly one well-formed listing and resets all four fields |
| Marketplace.CarrotsWithoutImage | new.jsx:516-518 | a named, priced listing without an image adds nothing |
| Loading.LoadingScreen.constructor | new.jsx:44-47 | fact 0, name hidden, nothing typed, and the 3 s timer armed |
| Loading.LoadingScreen.FactTick | new.jsx:50-56 | the fact index advances by one modulo 5 and stays below 5 |
| Loading.LoadingScreen.ShowName | new.jsx:75-81 | the name becomes visible, and the first letter timer is armed |
| Loading.LoadingScreen.TypeLetter | new.jsx:58-66 | the next letter of "Sproutly" is typed; the typed text stays a prefix of the name |
| Loading.LoadingScreen.Finish | new.jsx:67-72 | `onFinish` fires only with all 8 letters typed, 5.7 s after mount at the earliest |
| Loading.RunToFinish | new.jsx:50-81 | the whole sequence ends with "Sproutly" typed and `onFinish` called at 5700 ms |
| Shell.ToggleTwiceRestoresPalette | new.jsx:1140 | one toggle changes the palette, and two restore it |
| Shell.Highlights | new.jsx:1305-1312 | button i is highlighted exactly when its label is the active tab, so exactly one button is highlighted for a navigation entry and none otherwise |
| Shell.NavItemsDistinct | new.jsx:435-442 | the navigation labels are pairwise different |
| Shell.App.constructor | new.jsx:445-452 | light mode, the Home tab, loading not complete, no previews |
| Shell.App.CurrentScreen | new.jsx:1231-1233 | the splash is shown exactly until loading completes; after that the body shown is a navigation entry's, the active one, whose button alone is highlighted |
| Shell.App.SelectTab | new.jsx:1312 | the pressed entry becomes active; pressing the active one changes nothing |
| Shell.App.ToggleDarkMode | new.jsx:1140 | the flag flips and the palette changes |
| Shell.App.FinishLoading | new.jsx:1232 | the gate opens and the active tab is shown |
| Shell.App.HandleSoilImageChange | new.jsx:454-458 | a chosen file gives a preview; clearing the picker drops it |
| Shell.App.HandlePlantImageChange | new.jsx:460-464 | a chosen file gives a preview; clearing the picker drops it |
| Shell.ShellSession | new.jsx:445-449 | across any run of tab presses the tab stays a navigation entry, the gate stays open, and two toggles restore the palette |

## Left out

- Rendering is not modelled. This covers the JSX, the inline styles, the hover handlers and the `COLORS` hex values. The palette is an opaque light/dark choice.
- The `requestAnimationFrame` sinusoidal offset of the loading screen is not modelled. It is floating-point and only cosmetic.
- Real timers are not modelled, and neither is their cleanup on unmount. Each timer firing is a step method. Time is a ghost count of scheduled milliseconds, and late firing is not modelled.
- The Enter-key handler (`onKeyDown`) is not modelled. It only calls `sendMessage`.
- `alert`, `scrollIntoView` and `e.preventDefault()` have no effect on the modelled state.
- The Chatbot component is unmounted when another tab is selected. Its messages are then lost, and a pending reply timer is not cleared. The model keeps one panel for its whole life.
- Message and listing ids come from `Date.now()`. They are taken as parameters and are not proved unique. Two sends within the same millisecond give equal ids.
- Static content with no behaviour is not modelled: the plant illustration, the community posts, the sample products, the AR placeholder, the account history and the free-text account name and email fields.
- Text.LowerChar: covers only the ASCII capitals and the Kelvin sign (which becomes `k`). `toLowerCase` maps other non-ASCII capitals too. Apart from the Kelvin sign, the only non-ASCII capital whose lower case contains an ASCII letter is U+0130, which becomes `i` followed by U+0307. The keywords are ASCII and every `i` in them ("disease", "sick") is followed by another ASCII letter, so a U+0307 after it cannot complete a keyword.
- Text.ToLower: works code point by code point. The model does not capture JavaScript's UTF-16 code units or the special case mappings that change a string's length.
- Loading.LoadingScreen.FactTick: the fact interval is modelled from mount until `onFinish`. It is not a separate phase of the name sequence.
