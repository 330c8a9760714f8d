# Bridge chat app: a verified model of its screen logic

This project models, in Dafny, the small pieces of logic in an Expo / React
Native chat app whose behaviour can be stated exactly. Everything else in
the app is layout. Five parts are modelled:

- **Onboarding inputs.** The US phone-number formatter and its ten-digit
  submit gate. The birthday `MM/DD/YYYY` formatter and date check. The
  username sanitiser and validator. The name trim guard. The personality
  picker.
- **The onboarding step machine.** It loads a list of steps, advances a
  bounded step counter and keeps the last phone number it was given.
- **The chat screens.** Three chat screens and two message composers. Each
  one ignores blank input, appends the user's message, clears the field and
  raises a typing flag. A later, separate step appends one canned reply and
  lowers the flag. The dark chat keeps its messages in a store that maps a
  conversation id to its messages.
- **Lists and forms held in memory.** Community search and creation, the
  task category filter, the settings and preference switches, the friends
  list, and the state of several sheets and fields.
- **Pure selectors.** The chat theme's background style and colour
  schemes. The build variant's name, slug, scheme and bundle identifier.

The form of each part follows the source:

- A component whose handlers update state is a `class`. Its fields are that
  state, and each handler is a `method` whose `ensures` gives the whole new
  state.
- Pure helpers are `function`s, and lemmas connect them. Examples are the
  formatters' round trips, idempotence, filter membership and order, and
  agreement between a disabled-button predicate and the guard of the
  handler it protects.
- Randomness, clocks and fresh ids are parameters: a `choice` index, a
  `now` value and a `newId`. A reply that the source schedules with
  `setTimeout` is its own `DeliverReply` method.

String handling follows JavaScript:

- `trim` removes the ECMAScript white-space and line-terminator characters.
- `\d` is an ASCII digit.
- `toLowerCase` maps ASCII letters.
- `parseInt(s, 10)` skips leading white space and one sign, reads the
  leading digits, and gives `None` where JavaScript gives `NaN`.
- `new Date(y, m - 1, d)` rolls a day past the end of the month into the
  next month.

The two copies of `formatPhoneNumber`, `handlePhoneChange` and
`handleSubmit` (components/onboarding/PhoneId.tsx and
components/onboarding/screens/PhoneId.tsx) are identical line for line. One
`PhoneId` module models both, and the table cites it for each. The same
holds for `handleSend` and `handleChangeText` in the two `InputContainer`
files, which `ChatComposer` models.

## Model

| member | source | states |
|---|---|---|
| Text.Trim | components/CreateCommunityModal.tsx:16-17 | The result is the input with its white space at both ends cut off: a contiguous piece of it, with only white space before and after, that neither starts nor ends with white space. |
| Text.BlankIffAllWhitespace | components/dark_chat/ChatScreen.tsx:131 | `!s.trim()` holds exactly when every character of `s` is white space. |
| Text.TrimIdempotent | components/CreateCommunityModal.tsx:17 | Trimming twice is trimming once. |
| Text.Digits | components/onboarding/PhoneId.tsx:26 | `replace(/[^\d]/g, '')` keeps only digits, in order, and never lengthens the text. |
| Text.DigitsAppend | components/onboarding/PhoneId.tsx:26 | Removing non-digits from a concatenation concatenates the digit strings. |
| Text.ToLower | components/onboarding/screens/UsernameInput.tsx:34 | Lower-casing keeps the length and maps each character by itself: a capital letter becomes the same letter in lower case (code point + 32), any other character stays. |
| Text.NatToStringInjective | app/no_tabs/world.tsx:32 | `String(n)` is injective on naturals. |
| Text.Split | components/onboarding/screens/BirthdayInput.tsx:31 | `split('/')` gives at least one part, and no part contains the separator. |
| Text.SplitCount | components/onboarding/screens/BirthdayInput.tsx:31 | `split` gives one part more than there are separators. |
| PhoneId.FormatDigits | components/onboarding/PhoneId.tsx:24-33 | The digits of the formatted number are exactly the first min(n, 10) digits typed, in order. |
| PhoneId.FormatEmpty | components/onboarding/screens/PhoneId.tsx:38-41 | The result is empty exactly when the input has no digits, including the empty input returned as is. |
| PhoneId.Format | components/onboarding/PhoneId.tsx:32 | The formatted number is never longer than 14 characters, the field's maxLength (line 109). |
| PhoneId.FormatLayout | components/onboarding/PhoneId.tsx:24-33 | Fewer than four digits stand bare. Four to six become "(ddd) " plus the rest. Seven or more become "(ddd) ddd-" plus up to four more. Every other position holds a digit. |
| PhoneId.FormatIdempotent | components/onboarding/PhoneId.tsx:24-33 | Formatting an already formatted number returns it unchanged. |
| PhoneId.SubmitAfterTyping | components/onboarding/PhoneId.tsx:60-70 | Typing a text and submitting forwards the first ten digits typed when at least ten were typed, and nothing otherwise. |
| PhoneId.PhoneIdScreen.HandlePhoneChange | components/onboarding/screens/PhoneId.tsx:93-96 | The field stores the formatted text, which stays a fixed point of the formatter with at most ten digits. |
| PhoneId.PhoneIdScreen.HandleSubmit | components/onboarding/screens/PhoneId.tsx:86-91 | Forwards the digit string exactly when it has at least ten digits. It is all digits and, from a stored value, exactly ten long. The first copy (components/onboarding/PhoneId.tsx:60-65) has the same gate. |
| PhoneId.PhoneIdScreen.SubmitDisabled | components/onboarding/PhoneId.tsx:126-127 | The button is disabled exactly when no digit is stored. It is enabled with fewer than ten digits, where submitting forwards nothing. |
| BirthdayInput.Format | components/onboarding/screens/BirthdayInput.tsx:11-17 | The formatted birthday is at most 10 characters, so the guard at lines 25-27 never rejects an edit. |
| BirthdayInput.FormatDigits | components/onboarding/screens/BirthdayInput.tsx:12-17 | The digits of the result are exactly the first min(n, 8) digits typed. |
| BirthdayInput.FormatLayout | components/onboarding/screens/BirthdayInput.tsx:11-17 | One digit stands bare. Two or three become "dd/" plus the rest, so exactly two digits end in a slash. Four or more become "dd/dd/" plus up to four more. Every other position holds a digit. |
| BirthdayInput.FormatIdempotent | components/onboarding/screens/BirthdayInput.tsx:11-17 | Formatting a formatted birthday leaves it unchanged. |
| BirthdayInput.CalendarDate | components/onboarding/screens/BirthdayInput.tsx:38 | `new Date(y, m-1, d)` for a day in 1..31 is a real date in the same year. It stays in month m with day d exactly when d fits the month, and otherwise is day d − DaysInMonth(y, m) of month m + 1. |
| BirthdayInput.ParseDigits | components/onboarding/screens/BirthdayInput.tsx:34-36 | `parseInt` of a non-empty digit string is its decimal value, below 10 to the power of its length. |
| BirthdayInput.FewPartsInvalid | components/onboarding/screens/BirthdayInput.tsx:31-32 | Any text that does not hold exactly two '/' splits into other than three parts and is invalid. |
| BirthdayInput.ShortYearInvalid | components/onboarding/screens/BirthdayInput.tsx:36-44 | A year of fewer than four digits, empty included, makes the date invalid. |
| BirthdayInput.ValidFormattedIsComplete | components/onboarding/screens/BirthdayInput.tsx:30-47 | A formatted birthday passes the check only when eight digits were typed, so it is a full 10-character date. |
| BirthdayInput.PartialDateRejected | components/onboarding/screens/BirthdayInput.tsx:34-44 | "1231" formats to "12/31/", whose empty year parses to NaN and fails the check. |
| BirthdayInput.DayNotCheckedAgainstMonth | components/onboarding/screens/BirthdayInput.tsx:38-45 | "02/31/2000" passes, because the day is only checked against 1..31 and `new Date` rolls it into March. |
| BirthdayInput.BirthdayInputScreen.HandleBirthdayChange | components/onboarding/screens/BirthdayInput.tsx:23-28 | The field stores the formatted text. |
| BirthdayInput.BirthdayInputScreen.PressNext | components/onboarding/screens/BirthdayInput.tsx:76-79 | The next button forwards the birthday exactly when `isValidBirthday` holds for it. |
| BirthdayInput.BirthdayInputScreen.SubmitEditing | components/onboarding/screens/BirthdayInput.tsx:49-51 | The keyboard's submit forwards the stored birthday unchecked. |
| UsernameInput.ValidateAccepts | components/onboarding/screens/UsernameInput.tsx:20-31 | No error exactly when the length is 3..15 (15 accepted) and every character is in [a-zA-Z0-9_]. |
| UsernameInput.Sanitize | components/onboarding/screens/UsernameInput.tsx:34 | The sanitised name holds only [a-z0-9_] and is no longer than the input. |
| UsernameInput.SanitizeAppend | components/onboarding/screens/UsernameInput.tsx:34 | Sanitising works character by character: a concatenation sanitises to the concatenation of the sanitised pieces. |
| UsernameInput.SanitizeChar | components/onboarding/screens/UsernameInput.tsx:34 | Each character is lower-cased, then kept exactly when the lower-cased character is in [a-z0-9_]. |
| UsernameInput.SanitizeLowercases | components/onboarding/screens/UsernameInput.tsx:34 | "Ab_1" sanitises to "ab_1": capitals are kept as lower-case letters, not dropped. |
| UsernameInput.SanitizeIdempotent | components/onboarding/screens/UsernameInput.tsx:34 | Sanitising twice is sanitising once. |
| UsernameInput.SanitizeKeepsUsername | components/onboarding/screens/UsernameInput.tsx:34 | A name already made of [a-z0-9_] passes through unchanged. |
| UsernameInput.SanitizedNeverBadCharacter | components/onboarding/screens/UsernameInput.tsx:27-36 | The character error can never appear for sanitised input; it is valid exactly when 3..15 long. |
| UsernameInput.UsernameInputScreen.HandleUsernameChange | components/onboarding/screens/UsernameInput.tsx:33-37 | The field stores the sanitised text, and the error is the validation of it. |
| UsernameInput.UsernameInputScreen.HandleSubmit | components/onboarding/screens/UsernameInput.tsx:39-46 | `onNext` gets the name exactly when validation passes, a 3..15 name of [a-z0-9_]. Otherwise the error is set. |
| UsernameInput.UsernameInputScreen.ButtonDisabled | components/onboarding/screens/UsernameInput.tsx:82 | The button is disabled exactly when the stored name fails validation. |
| NameInput.Submission | components/onboarding/screens/NameInput.tsx:14-18 | A name is forwarded exactly when it is not all white space. The forwarded name is the trimmed input, non-empty, and already trimmed. |
| NameInput.NextDisabled | components/onboarding/screens/NameInput.tsx:44 | The button is disabled exactly when submitting would forward nothing. |
| NameInput.WhitespaceNameNotForwarded | components/onboarding/screens/NameInput.tsx:15 | A name made only of white space is never forwarded. |
| PersonalitySelect.PersonalityIdsDistinct | components/onboarding/screens/PersonalitySelect.tsx:32-53 | The four cards' ids are playful, professional, wise, caring, pairwise distinct. |
| PersonalitySelect.FindIndex | components/onboarding/screens/PersonalitySelect.tsx:71 | `findIndex` gives the first position with the id, or -1 exactly when no card has it. |
| PersonalitySelect.FindIndexOfDistinct | components/onboarding/screens/PersonalitySelect.tsx:71 | With distinct ids, the search for card i's id finds card i. |
| PersonalitySelect.OffsetIncreasing | components/onboarding/screens/PersonalitySelect.tsx:55-57 | The scroll offset index × (width − 48 + 16) grows strictly with the index on a screen wider than 32. |
| PersonalitySelect.PersonalitySelectScreen.constructor | components/onboarding/screens/PersonalitySelect.tsx:60 | The selection starts on the first card, "playful". |
| PersonalitySelect.PersonalitySelectScreen.HandlePersonalitySelect | components/onboarding/screens/PersonalitySelect.tsx:69-76 | Selects the id and scrolls to the offset of that card's index. A tap on card k scrolls to offset k. |
| PersonalitySelect.PersonalitySelectScreen.PressLetsGo | components/onboarding/screens/PersonalitySelect.tsx:168-171 | "let's go!" forwards the selection, which is always one of the four ids. |
| DynamicOnboarding.OnboardingData | components/onboarding/DynamicOnboarding.tsx:56-78 | Five steps with ids 1..5: phoneId, phoneId, welcome, features, signup. |
| DynamicOnboarding.NextStep | components/onboarding/DynamicOnboarding.tsx:105-107 | The counter goes up by one below the last index and stays put otherwise. |
| DynamicOnboarding.StepAfterPresses | components/onboarding/DynamicOnboarding.tsx:82-107 | After any number of presses from 0 the step is min(presses, length − 1). |
| DynamicOnboarding.KeptPhone | components/onboarding/DynamicOnboarding.tsx:102-104 | A truthy phone replaces the stored one; a missing or empty one keeps it. |
| DynamicOnboarding.OnboardingScreen.constructor | components/onboarding/DynamicOnboarding.tsx:81-85 | No steps, step 0, loading, no error, no phone. |
| DynamicOnboarding.OnboardingScreen.FinishLoad | components/onboarding/DynamicOnboarding.tsx:87-99 | Loading ends with the fetched steps, or with the failure message and no steps. |
| DynamicOnboarding.OnboardingScreen.HandleNext | components/onboarding/DynamicOnboarding.tsx:101-108 | Step and phone move as NextStep and KeptPhone say, and the counter stays a valid index. |
| DynamicOnboarding.OnboardingScreen.PressStep | components/onboarding/DynamicOnboarding.tsx:114-140 | Only the signup step completes. The phone step is the phone screen (components/onboarding/PhoneId.tsx:60-65): it advances and keeps the digits only when the field holds at least ten, and otherwise nothing changes. Welcome and features advance without a number. |
| DynamicOnboarding.ShortNumberNotSubmitted | components/onboarding/PhoneId.tsx:60-65 | A field reading "(650) 21" submits nothing, so the flow stays on the phone step. |
| DynamicOnboarding.OnboardingScreen.Render | components/onboarding/DynamicOnboarding.tsx:143-161 | Loading, then error, then no steps, then the step at `currentStep`, shown as "Step k of n" with k = currentStep + 1 and 1 ≤ k ≤ n. |
| DynamicOnboarding.FixedFlowReachesSignup | components/onboarding/DynamicOnboarding.tsx:56-78 | On the fixed steps, signup is reached exactly after four presses. |
| ChatComposer.Outgoing | components/chat/InputContainer.tsx:20-26 | Blank input sends nothing; otherwise exactly one text item holding the trimmed input. |
| ChatComposer.OutgoingTextIsTrimmed | components/normal_chat/InputContainer.tsx:23-26 | The text sent is non-empty and already trimmed. |
| ChatComposer.TypingReported | components/chat/InputContainer.tsx:32-35 | Typing is reported exactly when the untrimmed text is non-empty. |
| ChatComposer.SpaceIsTypingButNotSendable | components/normal_chat/InputContainer.tsx:20-35 | A single space counts as typing but cannot be sent. |
| ChatComposer.RightButton | components/normal_chat/InputContainer.tsx:59-67 | The right button sends exactly when there is something to send; otherwise it is the coming-soon action. |
| ChatComposer.Composer.HandleSend | components/chat/InputContainer.tsx:20-30 | Sends what Outgoing gives; the field is cleared after a send and kept otherwise. |
| ChatComposer.Composer.HandleChangeText | components/normal_chat/InputContainer.tsx:32-35 | Stores the text and reports typing as its length > 0. |
| ChatComposer.Composer.PressRightButton | components/normal_chat/InputContainer.tsx:59-60 | Either sends and clears, or shows "coming soon" and keeps the field. |
| AssistantChat.FirstText | components/chat/ChatScreen.tsx:58 | The item found is a text item of the content, and none is found exactly when there is no text item. |
| AssistantChat.FirstTextIsFirst | components/chat/ChatScreen.tsx:58 | The item found is the first text item. |
| AssistantChat.SentText | components/chat/ChatScreen.tsx:58-59 | A message is sent exactly when the first text item has a non-empty text. |
| AssistantChat.ComposerToScreen | components/chat/ChatScreen.tsx:120 | What the composer sends reaches the screen as the trimmed input. |
| AssistantChat.ChatScreen.HandleSend | components/chat/ChatScreen.tsx:57-70 | No text, nothing changes. Otherwise one user message is appended after the earlier ones, typing is on, and one reply is pending. |
| AssistantChat.ChatScreen.DeliverReply | components/chat/ChatScreen.tsx:72-81 | Appends the fixed reply as a non-user message and turns typing off. |
| AssistantChat.ChatScreen.SetIsTyping | components/chat/ChatScreen.tsx:120 | The composer's typing report sets the flag and nothing else. |
| GenZChat.GenZChatScreen.HandleSend | components/genz_chat/ChatScreen.tsx:99-111 | Blank input changes nothing. Otherwise the untrimmed text is appended as a user message, the field is cleared, a reply is pending, and the list invariant holds. |
| GenZChat.GenZChatScreen.DeliverReply | components/genz_chat/ChatScreen.tsx:119-139 | Appends canned reply number `choice` as a non-user message. Users and replies stay balanced. |
| GenZChat.CountAppend | components/genz_chat/ChatScreen.tsx:102-139 | Appending a message adds one to exactly one of the user and reply counts. |
| GenZChat.AppendKeepsWellFormed | components/genz_chat/ChatScreen.tsx:102-139 | Appending keeps every earlier message in place and the list well formed. |
| DarkChat.MessageStore.AddToChat | components/dark_chat/ChatScreen.tsx:43-53 | Stores exactly one message with this content and role at the end of `chatId`'s thread. Returns its id. Other threads are untouched. |
| DarkChat.GetBotName | components/dark_chat/ChatScreen.tsx:90-99 | '1'..'5' give Ara, GenZ, Poet, Chef, Teacher; any other id gives Ara. |
| DarkChat.ResponsesFor | components/dark_chat/ChatScreen.tsx:142 | A listed personality gets its own two lines; any other id gets the lines of '1'. |
| DarkChat.NameMatchesResponses | components/dark_chat/ChatScreen.tsx:31-37 | A bot is called Ara exactly when its id is '1' or unlisted, and then it answers with Ara's lines. |
| DarkChat.BotId | components/dark_chat/ChatScreen.tsx:59 | A non-empty route id wins, otherwise the conversation id. |
| DarkChat.ChatIdProp | components/dark_chat/ChatScreen.tsx:55 | A given conversation id is used as is; an absent one defaults to '1'. |
| DarkChat.RouteSetsPersonalityNotConversation | components/dark_chat/ChatScreen.tsx:55-59 | Opened on route '3' with no chat id, the screen talks as the Poet but uses conversation '1'. |
| DarkChat.DateHeaderMarksFirstOfDay | components/dark_chat/ChatScreen.tsx:215-217 | For messages in day order, a date header sits exactly above the first message of each day. |
| DarkChat.DarkChatScreen.SendDisabled | components/dark_chat/ChatScreen.tsx:266-269 | The send button is disabled exactly when the input is all white space, the guard of the send. |
| DarkChat.DarkChatScreen.HandleSend | components/dark_chat/ChatScreen.tsx:130-138 | Blank input changes nothing. Otherwise one user message with the trimmed text joins this conversation only, the field is cleared, typing is on, and a reply is pending. After any call the button is disabled. |
| DarkChat.DarkChatScreen.DeliverReply | components/dark_chat/ChatScreen.tsx:140-149 | Stores one of the personality's lines as the assistant's in this conversation and turns typing off. |
| CreateCommunityModal.CreateCommunityForm.HandleCreate | components/CreateCommunityModal.tsx:15-22 | Creates exactly when both trimmed fields are non-empty. The owner gets both trimmed values, the fields are cleared and the form closes. Otherwise nothing changes. |
| CreateCommunityModal.CreateCommunityForm.CreateDisabled | components/CreateCommunityModal.tsx:71-73 | The button is disabled exactly when the create guard fails. |
| CreateCommunityModal.CreatedValuesTrimmed | components/CreateCommunityModal.tsx:16-17 | The values handed over are non-empty, already trimmed, and pass the guard again. |
| World.FilteredMembers | app/no_tabs/world.tsx:26-28 | A community is listed exactly when its lower-cased name contains the lower-cased query. |
| World.FilteredAppend | app/no_tabs/world.tsx:26-28 | The filter keeps the list's order. |
| World.EmptyQueryKeepsAll | app/no_tabs/world.tsx:26-28 | An empty query lists every community. |
| World.EmptyStateMessage | app/no_tabs/world.tsx:62-68 | A blank query shows the join prompt; any other query is quoted inside the message. |
| World.PrependKeepsNumbered | app/no_tabs/world.tsx:30-37 | The new id `String(length + 1)` is not taken by any listed community. |
| World.WorldScreen.constructor | app/no_tabs/world.tsx:13-24 | Starts with the four mock communities, whose ids are distinct, no query, and the sheet hidden. |
| World.WorldScreen.Visible | app/no_tabs/world.tsx:26-28 | The shown list is `Filtered(communities, searchQuery)`, whose members FilteredMembers gives; with no query it is all of them. |
| World.WorldScreen.HandleCreateCommunity | app/no_tabs/world.tsx:30-38 | Puts one community with 0 members and id `String(length + 1)` in front of the list, ignoring the description. Ids stay distinct. |
| World.WorldScreen.OpenCreateModal | app/no_tabs/world.tsx:90 | The "+" button shows the form and changes nothing else. |
| World.WorldScreen.CloseCreateModal | app/no_tabs/world.tsx:97 | The form's close hides it and changes nothing else. |
| TaskList.InitialShowsAllTasks | app/index.tsx:47-52 | The screen starts on 'All' and lists every task. |
| TaskList.AllShowsEverything | app/index.tsx:50-52 | Under 'All' the list is the whole task list. |
| TaskList.CategoryMembers | app/index.tsx:50-52 | Under another category a task is listed exactly when it has that category. |
| TaskList.FilteredTasksAppend | app/index.tsx:50-52 | The filter keeps the list's order. |
| TaskList.RecurringIsEmpty | app/index.tsx:17-44 | 'Recurring' is a button but lists nothing over the fixed tasks. |
| TaskList.InboxShowsFirstTwo | app/index.tsx:17-52 | 'Inbox' lists the first two tasks in order. |
| ProfileSettings.Toggled | app/no_tabs/profile.tsx:73-78 | Key k is negated, an unset key reading as false, and every other key keeps its value. |
| ProfileSettings.ToggleTwice | app/no_tabs/profile.tsx:73-78 | Flipping a set key twice restores the settings. |
| ProfileSettings.ToggleTwiceUnset | app/no_tabs/profile.tsx:73-78 | Flipping an unset key twice leaves it set to false, not restored. |
| ProfileSettings.OnlyToggleItemsWired | app/no_tabs/profile.tsx:47-64 | Only the notifications and dark-mode items are toggles (lines 94-100), and both are keys of the initial settings. |
| ProfileSettings.ProfileScreen.constructor | app/no_tabs/profile.tsx:68-71 | Settings start as notifications on, dark mode off. |
| ProfileSettings.ProfileScreen.HandleSettingToggle | app/no_tabs/profile.tsx:73-78 | The settings become Toggled(settings, k), keeping exactly the two keys when k is one of them. |
| ProfileEditor.FlipDarkMode | components/profile/ProfileScreen.tsx:81 | The dark-mode press flips darkMode and keeps notifications and language. |
| ProfileEditor.FlipNotifications | components/profile/ProfileScreen.tsx:92 | The notifications press flips notifications and keeps darkMode and language. |
| ProfileEditor.FlipsUndoAndCommute | components/profile/ProfileScreen.tsx:81-92 | Each press undoes itself, and the two presses commute. |
| ProfileEditor.ProfileScreen.constructor | components/profile/ProfileScreen.tsx:12-19 | Name 'Your Name', dark mode and notifications on, English, no friends, empty feedback. |
| ProfileEditor.ProfileScreen.HandleAddFriend | components/profile/ProfileScreen.tsx:22-25 | Appends 'New Friend'. The list grows by one and the earlier entries stay in place. |
| ProfileEditor.ProfileScreen.HandleSubmitFeedback | components/profile/ProfileScreen.tsx:27-30 | Clears only the feedback text. |
| ProfileEditor.ProfileScreen.PressDarkMode | components/profile/ProfileScreen.tsx:81 | The preferences become FlipDarkMode of the old ones; nothing else changes. |
| ProfileEditor.ProfileScreen.PressNotifications | components/profile/ProfileScreen.tsx:92 | The preferences become FlipNotifications of the old ones; nothing else changes. |
| CommunityChat.CommunityChatPanel.HandleSend | components/CommunityChat.tsx:23-33 | `onSendMessage` gets the trimmed draft exactly when the draft is not all white space, and the draft is cleared. Otherwise the draft is kept. |
| CommunityChat.CommunityChatPanel.SendDisabled | components/CommunityChat.tsx:86-89 | The send button is disabled exactly when the draft is all white space. |
| BentoCard.BentoCardView.HandlePress | components/BentoCard.tsx:69-86 | Once the press animation finishes the sheet is shown, with the draft as it was. |
| BentoCard.BentoCardView.HandleSubmit | components/BentoCard.tsx:88-100 | A non-blank reply hides the sheet and opens '/chat' with replyTo = card id and the trimmed, non-empty reply. A blank one changes nothing. The draft is kept either way. |
| BentoCard.BentoCardView.CloseModal | components/BentoCard.tsx:102-106 | Hides the sheet and clears the draft. |
| Homescreen.RenderMoodIcon | app/no_tabs/homescreen.tsx:88-97 | A listed mood gets its icon; any other mood gets 'smile'. |
| Homescreen.SmileMeansPeacefulOrUnknown | app/no_tabs/homescreen.tsx:88-97 | The icon is 'smile' exactly for 'peaceful' and for unlisted moods. |
| Homescreen.HistoryMoodsHaveIcons | app/no_tabs/homescreen.tsx:40-46 | Every mood in the history is in the table, and no two days share an icon. |
| Homescreen.HomeScreen.constructor | app/no_tabs/homescreen.tsx:59-61 | The sheet is hidden, the text empty, and the prompt is the first reflection prompt. |
| Homescreen.HomeScreen.OpenInputModal | app/no_tabs/homescreen.tsx:84-86 | The prompt button, and the floating button at line 203, show the sheet and keep the text. |
| Homescreen.HomeScreen.CloseInputModal | app/no_tabs/homescreen.tsx:215 | Closing by request, or with the close button at line 226, hides the sheet and keeps the text. |
| Homescreen.HomeScreen.SaveReflection | app/no_tabs/homescreen.tsx:243-247 | "Save Reflection" hides the sheet and clears the text without storing it. |
| Theme.GetBackgroundStyle | lib/theme.tsx:185-198 | A solid colour's style is that colour; a gradient or image gives 'transparent'. |
| Theme.RenderBackground | lib/theme.tsx:155-183 | A gradient is drawn with a missing or empty end replaced by '#000000', a solid as a plain view of its colour, an image as an image. |
| Theme.OrBlack | lib/theme.tsx:158-159 | `x \|\| '#000000'` keeps a non-empty colour and gives black otherwise. |
| Theme.StyleMatchesBackdrop | lib/theme.tsx:155-198 | The style is transparent exactly where a gradient or image is drawn, and otherwise is the plain view's colour. |
| Theme.SchemesWellFormed | lib/theme.tsx:34-153 | There are four schemes. Each scheme's name is its key, and each sets both bubbles and the input. |
| Theme.SchemeBackgroundStyles | lib/theme.tsx:34-153 | 'dark' has style '#000000'; the three gradient schemes are transparent. |
| AppConfig.GetAppName | app.config.ts:7-9 | "Chat App Dev" for development, "Chat App Preview" for preview, "Chat App" otherwise. |
| AppConfig.GetUniqueIdentifier | app.config.ts:11-13 | The base identifier, with ".dev" or ".preview" appended for those variants only. |
| AppConfig.GetSlug | app.config.ts:15-17 | The slug for each variant. |
| AppConfig.GetScheme | app.config.ts:19-21 | The URL scheme for each variant. |
| AppConfig.SlugIsScheme | app.config.ts:15-21 | Slug and scheme are equal for every variant, and differ between variants. |
| AppConfig.EveryOtherVariantIsProduction | app.config.ts:3-21 | Unset, "production" and any other value all get the production values. |
| AppConfig.Config | app.config.ts:23-36 | Incoming fields that the app does not set are kept, and the app's own fields win. |
| AppConfig.ConfigIdentity | app.config.ts:24-36 | Name, slug, scheme and the iOS bundle identifier always follow the variant. |
| AppConfig.ForeignFieldsKept | app.config.ts:25 | A field such as `owner` passes through. |
| AppConfig.IosSectionReplaced | app.config.ts:34-40 | The incoming `ios` section is replaced as a whole, so an incoming build number is lost. |

## Left out

- Rendering, styles, animation, scrolling, haptics, fonts, keyboard
  listeners and navigation other than the routes named above. These have
  no state logic to state.
- The timers. Each `setTimeout` reply is the explicit `DeliverReply` step,
  and delays are not modelled. Replies are delivered in any order the
  caller chooses, and `pendingReplies` counts the ones still to come.
- `Math.random`, `Date.now`, `new Date()` and the database's `id()`. These
  are the `choice`, `now` / `today` and `newId` parameters, so colliding
  `Date.now()` ids are not modelled.
- The hosted database. `db.transact` is an append to a per-conversation
  sequence. The dark chat's query is assumed to return a conversation's
  messages in the order they were written, and the query's loading and
  error states are not modelled.
- DarkChat.DateHeaderMarksFirstOfDay: the time zone is folded into
  `Stamp.localDay`, the local calendar day that `toDateString` compares.
  Locale formatting of the header text is not modelled.
- DarkChat.ResponsesFor: lookups of keys from the JavaScript object
  prototype, such as "toString", are not modelled. Such an id would not
  fall back to the '1' lines in the source. Homescreen.RenderMoodIcon
  treats moods the same way.
- DynamicOnboarding.OnboardingScreen.HandleNext: React batches state
  updates, so `handleNext` reads the `currentStep` of the render it was
  created in. Each handler call here sees the previous call's result, as
  happens with one press per render.
- The PhoneId screen's font-loading gate, the privacy and terms sheets,
  and the image and attachment buttons, which only show a "coming soon"
  alert.
- The `maxLength` limits on the text fields (1000 in the composers). The
  model's text setters accept any text.
- BentoCard.BentoCardView.HandleSubmit: the text field's `onBlur` also
  calls `closeModal`. Any blur that hiding the sheet causes after a submit
  is a platform event and is not modelled.
- UsernameInput.Validate: `|value|` counts code points, where `.length`
  counts UTF-16 code units. The two differ only for characters outside the
  Basic Multilingual Plane, which sanitising removes before validation.
- Text.ToLower: only ASCII letters are lower-cased. Characters whose
  lower-case form differs outside ASCII (for example U+0130 or the Kelvin
  sign) are not modelled.
- PersonalitySelect.OffsetIncreasing: the screen width is an integer
  parameter, and the fractional widths of `Dimensions` are not modelled.
- Sign-in, persistent storage, environment lookups, `app/journal.tsx`
  (whose filter is never applied), and the presentation-only screens.
  None of these are part of this model.
