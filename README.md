# WmgBot user bot, modelled in Dafny

This project models the per-user, per-event state handling of WmgBot, a
Telegram bot for an education centre. Registered users read news and FAQs,
pick subscriptions and ask the staff questions. The staff answer from an
admin group.

The model covers:

- the consultation relay at its centre: the `bot.on("message")` dispatcher,
  consultation mode, and the two stores the relay keeps;
- the news and FAQ navigation state and the subscription menu;
- the registration dialogue and the parsing of typed course names;
- `escapeMarkdown`;
- the locale tables and `t`.

Each inbound event is one atomic step. The per-user dictionaries of the
handler modules become the fields of three classes: `UserHandlers`,
`Registration` and `UserBot`. The MongoDB collections become the map fields
of a `Database` class whose methods are upserts and lookups.

Telegram is a `Telegram` object with a script of answers given in advance.
Each send consumes one answer: a delivered message with the id Telegram chose,
or a failure (the source's thrown error). Only delivered requests are
recorded in `sent`. Message ids are not assumed to be fresh. Telegram numbers
messages per chat, and the thread store is keyed on the message id alone, so
ids can collide. The scenario methods show what the store does when they do.

Files and modules:

| file | module | contents |
|---|---|---|
| text.dfy | `Text` | `Option`; JavaScript `split`/`join`/`trim`/`includes`/`toLowerCase`/number printing over `seq<char>` |
| markdown.dfy | `Markdown` | `escapeMarkdown` and the reading that undoes it |
| locales.dfy | `Locales` | the two locale tables as property lists, and `t` |
| sanitize.dfy | `Sanitize` | `sanitizeCourse` |
| selection.dfy | `Selection` | the `indexOf`/`splice`/`push` toggle, and the name carried in callback data |
| db.dfy | `Store` | the `Database` class: thread entries, chat sessions, settings, users, catalogue |
| transport.dfy | `Transport` | the scripted `Telegram` class |
| userhandlers.dfy | `UserHandlers` | news, FAQ, subscription and consultation handlers |
| registration.dfy | `Registration` | language → phone → courses, typed or picked |
| userbot.dfy | `UserBot` | the message dispatcher and four conversation scenarios |

## Model

| member | source | states |
|---|---|---|
| Markdown.EscapeMarkdown | bot/userBot.js:30-33 | a falsy text escapes to ""; the output is the input plus one character per Markdown-special character |
| Markdown.UnescapeEscape | bot/handlers/userHandlers.js:9-12 | every special character gets exactly one backslash: reading the escaped text back under MarkdownV2's escaping gives the original |
| Markdown.EscapeInjective | bot/handlers/registrationHandlers.js:6-9 | two different texts never escape to the same string |
| Markdown.SpecialsArePrefixed | bot/userBot.js:32 | every special character in the escaped text has a backslash right before it |
| Text.Split | bot/handlers/registrationHandlers.js:161 | `split` on a one-character class returns at least one part, and no part holds a separator |
| Text.JoinSplit | bot/handlers/userHandlers.js:278-279 | joining the `split("_")` parts with `_` gives the string back |
| Text.SplitJoin | bot/handlers/registrationHandlers.js:160-161 | fields without separators, joined and split again, come back unchanged |
| Text.ContainsOccurs | bot/handlers/userHandlers.js:118-122 | `includes` holds exactly when the text occurs at some position |
| Text.Trim | bot/handlers/registrationHandlers.js:115 | `trim` leaves no whitespace at either end and never lengthens the text |
| Text.TrimIsSlice | bot/handlers/registrationHandlers.js:18 | what `trim` keeps is one contiguous piece of the text, and everything it drops before and after that piece is whitespace |
| Locales.TableOfEntries | locales/index.js:1-157 | a table built from a property list has exactly the list's keys, and each value comes from one of the list's entries |
| Locales.EntriesAgree | locales/index.js:2-156 | the Cyrillic and Latin lists name the same keys in the same order, and every value is non-empty and differs from its key |
| Locales.TablesAgree | locales/index.js:1-157 | both tables define the same key set, with non-empty values that differ from their keys |
| Locales.TOwnEntry | locales/index.js:159-160 | a known language whose table has the key gets its own table's string |
| Locales.TUnknownLanguage | locales/index.js:160 | any other language code, such as the schema default "uz", reads the Cyrillic entry, the same as the default language |
| Locales.TMissingKey | locales/index.js:160 | a key neither table defines comes back unchanged |
| Locales.TNeverBareKey | locales/index.js:159-161 | for a key the tables define, `t` never returns the bare key, whatever the language |
| Sanitize.SanitizeCourse | bot/handlers/registrationHandlers.js:12-13 | a falsy text sanitises to "" |
| Sanitize.RemoveUnusualKept | bot/handlers/registrationHandlers.js:16 | only letters, digits, whitespace, `-`, `,` and `.` survive the first replacement |
| Sanitize.RemoveUnusualKeepsKept | bot/handlers/registrationHandlers.js:16 | every kept character survives the first replacement as many times as it occurs, and no other character survives |
| Sanitize.RemoveUnusualSubset | bot/handlers/registrationHandlers.js:16 | the first replacement only deletes characters |
| Sanitize.CollapseSpaces | bot/handlers/registrationHandlers.js:17 | after `replace(/\s+/g, " ")` every whitespace character is a plain space |
| Sanitize.CollapseNoDouble | bot/handlers/registrationHandlers.js:17 | after the second replacement no two whitespace characters are adjacent; the text starts with a space exactly where it started with whitespace |
| Sanitize.CollapseAddsOnlySpaces | bot/handlers/registrationHandlers.js:17 | the second replacement adds no character other than the space |
| Sanitize.CollapsedShape | bot/handlers/registrationHandlers.js:16-17 | after both replacements every character is kept, all whitespace is a space, and there is never double whitespace |
| Sanitize.TrimKeepsChars | bot/handlers/registrationHandlers.js:18 | trimming adds no character |
| Sanitize.SanitizeIsClean | bot/handlers/registrationHandlers.js:12-19 | the output holds only letters, digits, spaces, `-`, `,` and `.`; no whitespace at either end; never two whitespace characters in a row |
| Sanitize.SanitizeAddsOnlySpaces | bot/handlers/registrationHandlers.js:12-19 | every character of the output was in the input or is a space |
| Sanitize.RemoveUnusualKeepsClean | bot/handlers/registrationHandlers.js:16 | text made only of course characters passes the first replacement unchanged |
| Sanitize.CollapseKeepsClean | bot/handlers/registrationHandlers.js:17 | text whose whitespace is single spaces passes the second replacement unchanged |
| Sanitize.CleanIsFixedPoint | bot/handlers/registrationHandlers.js:12-19 | a clean course name is its own sanitisation |
| Sanitize.SanitizeIdempotent | bot/handlers/registrationHandlers.js:12-19 | sanitising twice equals sanitising once |
| Selection.IndexOf | bot/handlers/userHandlers.js:285 | `indexOf` gives the first position holding the name, or -1 exactly when the name is absent |
| Selection.ToggleEdits | bot/handlers/userHandlers.js:285-300 | a tap on a selected name removes its first occurrence and keeps everything else in order; a tap on any other name appends it |
| Selection.ToggleCounts | bot/handlers/registrationHandlers.js:354-359 | as a multiset, a tap removes one copy of a selected name or adds one of an absent name, and no other name's count changes |
| Selection.RemoveAtKeepsDistinct | bot/handlers/userHandlers.js:290 | `splice(i, 1)` keeps a duplicate-free list duplicate-free |
| Selection.ToggleFlips | bot/handlers/registrationHandlers.js:354-359 | on a duplicate-free list a tap flips the tapped name's membership, and the list stays duplicate-free |
| Selection.ToggleTwice | bot/handlers/userHandlers.js:288-297 | tapping an unselected name twice gives the list back |
| Selection.CallbackName | bot/handlers/userHandlers.js:278-279 | data without `_` names the empty string |
| Selection.CallbackNameRoundTrip | bot/handlers/userHandlers.js:223 | for button data `sub_toggle_<id>_<name>`, the name field after the third `_` is `name` exactly, underscores included |
| Store.Database.SaveMessageThread | database/db.js:379-385 | an upsert keyed on the message id alone: a later save replaces both user and chat, and every other id resolves as before |
| Store.Database.FindUserByMessageId | database/db.js:387-389 | the entry stored under the id, or null exactly when the id was never saved |
| Store.LastSaveWins | database/db.js:379-389 | after any sequence of saves, an id resolves to the entry of its last save; an id never saved keeps what it had |
| Store.LastSaveOf | database/db.js:379-385 | the position of the last save of an id: nothing later saves that id |
| Store.Database.SaveChatSession | database/db.js:321-331 | an upsert on the user id: one session per user, holding the latest thread id |
| Store.Database.GetChatSession | database/db.js:333-335 | the user's session, or null exactly when there is none |
| Store.Database.GetSetting | database/db.js:292-298 | null for an absent key; the Latin text exactly when the language is `uz_latin`; the Cyrillic text for every other language, including the default |
| Store.Database.GetSettingBoth | database/db.js:300-305 | both texts of a key, or null exactly when the key is absent |
| Store.Database.UpdateSetting | database/db.js:307-318 | an upsert by key: `getSettingBoth` then returns exactly the new pair, and `getSetting` returns each text in its language |
| Store.Database.GetUser | database/db.js:202-204 | the user record, or null exactly when there is none |
| Store.Database.GetUserSubscriptions | database/db.js:196-199 | the stored list, or `[]` when no user record exists |
| Store.Database.UpdateUser | database/db.js:207-209 | a `findOneAndUpdate` without upsert: an existing record changes, an absent one is not created |
| Store.Database.UpdateUserLanguage | database/db.js:207-209 | sets the language of an existing record only |
| Store.Database.UpdateUserPhone | database/db.js:212-214 | sets the phone of an existing record only |
| Store.Database.UpdateUserCourses | database/db.js:217-222 | sets the interested courses of an existing record only |
| Store.Database.UpdateUserSubscription | database/db.js:188-193 | sets the subscription list of an existing record only; `getUserSubscriptions` then returns it |
| Store.Database.CompleteRegistration | database/db.js:225-230 | marks an existing record as registered |
| Transport.Telegram.Send | bot/handlers/userHandlers.js:472-483 | a send answers with the next scripted result, or fails once the script is used up; only a delivered request is recorded |
| UserHandlers.LanguageOf | bot/handlers/userHandlers.js:30 | the user's language when the record exists and sets one, `uz_cyrillic` otherwise, never empty |
| UserHandlers.NewsButtons | bot/handlers/userHandlers.js:62-74 | Prev appears iff the index is above 0; Next iff the index is below total−1; the main-menu button appears once, last |
| UserHandlers.FaqButtons | bot/handlers/userHandlers.js:371-377 | Next appears iff the index is below total−1; the main-menu button appears once, last |
| UserHandlers.NewsIndexAfter | bot/handlers/userHandlers.js:116-126 | the new news index is always inside the list; it moves at most one step; it is exactly one step away whenever that step stays inside; a step below the first item stays at 0 and a step past the last stays at the last |
| UserHandlers.NextFaqIndex | bot/handlers/userHandlers.js:396-400 | the new FAQ index is inside the list, and is either the next question or the first one |
| UserHandlers.FaqAfterWalks | bot/handlers/userHandlers.js:396-402 | pressing Next k times from the start, with k below the length, lands on question k |
| UserHandlers.FaqAfterCycles | bot/handlers/userHandlers.js:396-402 | pressing Next once per question more comes back to the same question |
| UserHandlers.NextDataSteps | bot/handlers/userHandlers.js:70 | the data of a Next button asks for a step forward |
| UserHandlers.PrevDataSteps | bot/handlers/userHandlers.js:64 | the data of a Prev button asks for a step back: "news_next" occurs nowhere in it |
| UserHandlers.NewsButtonMoves | bot/handlers/userHandlers.js:62-74 | every arrow the news screen shows moves the reader by exactly one item |
| UserHandlers.NewsNextThenPrev | bot/handlers/userHandlers.js:116-128 | Next followed by Prev brings the reader back to the same item |
| UserHandlers.FaqNextShownIffMovesOn | bot/handlers/userHandlers.js:371-377 | the FAQ Next button is shown exactly when pressing it moves on rather than starting over |
| UserHandlers.ForwardTextCarriesMessage | bot/handlers/userHandlers.js:472-481 | the user's own words can be read back out of the forwarded text under MarkdownV2's escaping, after the user header |
| UserHandlers.ForwardTextInjective | bot/userBot.js:278-289 | from one sender, two different messages never forward as the same text |
| UserHandlers.UserHandlers.HandleNewsCommand | bot/handlers/userHandlers.js:27-43 | with news, the user's index is reset to 0 and the first page is shown; without, only the no-news notice; no other state changes |
| UserHandlers.UserHandlers.HandleNewsNavigation | bot/handlers/userHandlers.js:104-144 | the stored index (0 when unset) moves by the data's step, is clamped and stored, and that page is shown; no news gives only an alert |
| UserHandlers.UserHandlers.HandleFaqCommand | bot/handlers/userHandlers.js:339-352 | with FAQs, the user's index is reset to 0 and the first question is shown; without, only a notice |
| UserHandlers.UserHandlers.HandleFaqNavigation | bot/handlers/userHandlers.js:385-412 | the stored index (0 when unset) plus one, wrapping to 0, is stored and shown; no FAQs gives only an alert |
| UserHandlers.UserHandlers.HandleSubscriptionCommand | bot/handlers/userHandlers.js:199-240 | with a catalogue, editing starts from the user's stored list (`[]` without a record); without one, only a notice |
| UserHandlers.UserHandlers.HandleSubscriptionSelection | bot/handlers/userHandlers.js:242-334 | `sub_confirm` with an empty selection only alerts; a non-empty one is stored and the editing state removed; any other data toggles the name it carries |
| UserHandlers.UserHandlers.HandleConsultationCommand | bot/handlers/userHandlers.js:436-450 | the user enters consultation mode; no other state changes |
| UserHandlers.UserHandlers.HandleConsultationMessage | bot/handlers/userHandlers.js:452-497 | outside the mode nothing happens; the cancel label leaves the mode without sending; otherwise the text is forwarded, and only a delivered forward sets the session, records the thread entry and ends the mode; `Cancelled` only for the cancel label; any other text in the mode that meets a delivering Telegram is `Forwarded` with the delivered id |
| UserHandlers.UserHandlers.ForwardConsultation | bot/handlers/userHandlers.js:469-496 | on delivery the forwarded id becomes the session anchor and a thread entry for the sender, and the mode ends; on failure nothing is stored and the mode stays; a delivering Telegram always gives `Forwarded` with the delivered id |
| Registration.LanguageFromCallback | bot/handlers/registrationHandlers.js:30-33 | the language code always starts with `uz_` |
| Registration.LanguageIsSecondField | bot/handlers/registrationHandlers.js:30 | the language is `uz_` plus the second `_`-separated field of the data |
| Registration.CyrillicButton | bot/handlers/registrationHandlers.js:53 | the Cyrillic button selects `uz_cyrillic` |
| Registration.LatinButton | bot/handlers/registrationHandlers.js:54 | the Latin button selects `uz_latin` |
| Registration.SanitizeAll | bot/handlers/registrationHandlers.js:162-163 | no more courses than pieces, and none of them empty |
| Registration.SanitizeAllClean | bot/handlers/registrationHandlers.js:162-163 | every course that survives is a clean course name |
| Registration.ParseCoursesClean | bot/handlers/registrationHandlers.js:160-163 | every course read from a text is non-empty and clean |
| Registration.SanitizeAllKeepsFixedPoints | bot/handlers/registrationHandlers.js:162-163 | non-empty names that sanitise to themselves pass through unchanged |
| Registration.ParseJoinedCourses | bot/handlers/registrationHandlers.js:160-163 | clean names written with commas or semicolons between them are read back exactly |
| Registration.FirstMatch | bot/handlers/registrationHandlers.js:172-179 | `find` returns a matching subscription or none |
| Registration.FirstMatchIsFirst | bot/handlers/registrationHandlers.js:172-179 | no subscription before the one `find` returns matches; when it returns none, no subscription matches |
| Registration.MatchedCourses | bot/handlers/registrationHandlers.js:169-181 | no more matched names than entered courses |
| Registration.MatchCourses | bot/handlers/registrationHandlers.js:169-181 | the `for` loop collects, in order, the recorded name of the first match of each entered course that has one |
| Registration.MatchedCoursesEmpty | bot/handlers/registrationHandlers.js:169-181 | nothing is matched exactly when no entered course matches any subscription |
| Registration.MatchedCoursesAreNames | bot/handlers/registrationHandlers.js:180 | every matched name is the recorded name (`name_latin`, else `name`) of some subscription |
| Registration.FinalCoursesFallback | bot/handlers/registrationHandlers.js:183 | the stored list is empty exactly when nothing usable was typed; it is the typed list when nothing matched; any name not typed is a catalogue name |
| Registration.Registration.StoreCourses | bot/handlers/registrationHandlers.js:186-188 | courses, subscription and completion are written to an existing user record, and nothing else |
| Registration.Registration.HandleLanguageSelection | bot/handlers/registrationHandlers.js:25-58 | with data, stores the language and moves the user to the phone step; without, changes nothing |
| Registration.Registration.HandlePhoneNumber | bot/handlers/registrationHandlers.js:61-73 | ignored unless at the phone step; a missing contact re-prompts and keeps the step; a number is stored and moves to the courses step; a shared number at the phone step is always accepted; an ignored contact changes no state and no user |
| Registration.Registration.FinishRegistration | bot/handlers/registrationHandlers.js:118-156 | the finish word completes registration with no courses and removes the state entry |
| Registration.Registration.RegisterCourses | bot/handlers/registrationHandlers.js:158-228 | stores the matched catalogue names, or the typed names when none match, and removes the state entry |
| Registration.Registration.HandleCoursesText | bot/handlers/registrationHandlers.js:109-229 | returns false and changes nothing unless at the courses step; throws without text; the trimmed finish word (either script, any case) finishes; other text is parsed, matched and stored |
| Registration.Registration.HandleCourseSelection | bot/handlers/registrationHandlers.js:232-390 | only at the courses step: `reg_skip` completes; `reg_courses_confirm` alerts on an empty selection and otherwise stores it; any other data toggles the course it names |
| UserBot.ReplyKind | bot/userBot.js:167-236 | the admin reply's kind is the first the message carries, in the order text, photo, video, document, voice, audio, sticker; none when it carries none |
| UserBot.ReplyBody | bot/userBot.js:167-233 | a text reply is sent as text and every other kind as media; only a photo with no sizes throws before sending |
| UserBot.ReplyTextReadsBack | bot/userBot.js:169-173 | the user receives the admin header followed by text that reads back under MarkdownV2's escaping as exactly what the admin wrote |
| UserBot.CaptionsEscapedExceptDocument | bot/userBot.js:174-227 | photo, video and audio captions are escaped; a document caption is passed on as typed |
| UserBot.UserBot.RelayAdminReply | bot/userBot.js:149-256 | an unknown target sends and writes nothing; an unsupported kind too; a delivered reply files the admin's message and the delivered one under the resolved user; a failed send writes nothing |
| UserBot.UserBot.RelayContinuation | bot/userBot.js:258-312 | a reply is forwarded only when its target's entry carries the sender's id and the sender has a non-zero session thread; it goes as a reply to that thread, and only a delivered forward is filed |
| UserBot.UserBot.RouteConsultation | bot/userBot.js:314-317 | only a text from a user in consultation mode reaches the consultation handler; anything else is dropped without sending; the consultation mode changes exactly as `ModeAfter` says (the sender leaves it on a cancel or a delivered forward) and the news, FAQ and subscription state of the handlers is untouched; the settings are untouched |
| UserBot.UserBot.RoutePrivate | bot/userBot.js:258-317 | a reply that meets the continuation conditions and is delivered is relayed; everything else falls through to consultation, and a text from a user in the mode that is not relayed always reaches it; the consultation mode changes exactly as `ModeAfter` says and the other handler state is untouched; an unhandled message sends nothing; the settings are untouched |
| UserBot.UserBot.RouteUnregistered | bot/userBot.js:148-317 | an admin-group reply always ends in the admin branch and never reaches continuation or consultation; every entry written belongs to the user being talked with; outside the admin branch and continuation, a text from a user in the mode reaches consultation; the consultation mode changes exactly as `ModeAfter` says and the other handler state is untouched; an unhandled message sends nothing; the settings are untouched |
| UserBot.UserBot.RouteRegistration | bot/userBot.js:144-146 | the course-text step claims a message exactly when its sender is at the courses step; other messages change no user or registration state; course text removes only the sender's registration entry, keeps every other user record and no record appears or disappears, and the sender's record is left completed; threads, sessions and settings are untouched |
| UserBot.UserBot.OnMessage | bot/userBot.js:143-318 | the branches in the source's order: course text is never relayed; admin replies go to the admin branch only; continuation only under its three conditions; consultation only for text in the mode; the session moves only on a delivered consultation message; every thread entry written belongs to the user being talked with; a text from a user in the mode that is not course text, not an admin reply and not relayed reaches consultation; the consultation mode changes exactly as `ModeAfter` says and the news, FAQ and subscription state is untouched; course text removes only the sender's registration entry and changes no other user's record; an unhandled message sends nothing; the settings are untouched |
| UserBot.EntriesForOne | bot/userBot.js:297-301 | one entry saved for a user keeps every other entry |
| UserBot.EntriesForTwo | bot/userBot.js:239-247 | two entries saved for a user keep every other entry |
| UserBot.EntriesForKeepAdminGroup | bot/userBot.js:239-247 | when every thread entry is filed under the admin group, it still is after the dispatcher writes its entries |
| UserBot.AdminAnswerScenario | bot/userBot.js:149-250 | an admin's answer to a consultation message reaches the user and is filed under that user |
| UserBot.UserFollowUpScenario | bot/userBot.js:258-306 | the user's reply to that answer goes back to the admin group as a reply to the original consultation message |
| UserBot.SharedIdOverwriteScenario | bot/userBot.js:239-247 | a reply delivered into a user's private chat with an id an admin-group message already has replaces that message's entry |
| UserBot.SharedIdMisrouteScenario | bot/userBot.js:157-173 | after such an overwrite, an admin's reply to the overwritten message reaches the other user |

## Left out

- `escapeMarkdown` escapes the 18 special characters of MarkdownV2, but every message that uses it is sent with the legacy `parse_mode: "Markdown"`. Telegram's legacy mode drops a backslash only before `_`, `*`, `` ` `` and `[`, so users and admins see a stray backslash before `.`, `!`, `-`, `(`, `)` and the other MarkdownV2-only characters: "Salom!" arrives as `Salom\!`. `Unescape` models MarkdownV2's reading; the round-trip lemmas state the text survives under that reading, not what legacy Markdown displays.
- The skip button of the course keyboard (callback data `reg_skip`, created at bot/handlers/registrationHandlers.js:104) is never routed: no `bot.action` in bot/userBot.js:128-140 matches it, because `/reg_course_[a-f0-9]+_.+/` needs `reg_course_` and the only plain action is `reg_courses_confirm`. `HandleCourseSelection` models the handler's `reg_skip` branch (registrationHandlers.js:240) as written, which the running bot never reaches; this is read from the source and not executed.

- The database can fail, and the admin panel's own writes are not modelled. Every store call succeeds, and the catalogue, news and FAQ lists are given, not loaded.
- Notices through `ctx.reply`, `answerCbQuery` and `editMessageText` are assumed delivered, and the model returns a `Screen` or `Route` value instead of sending them. Wherever such a call throws before an in-memory state update that follows it, the source keeps the old state and the model does not. The cases include:
  - if the "✅" reply after a relayed continuation throws, the source's `catch` lets the message fall through to consultation;
  - if the `consultation_sent` reply throws, the mode stays set although the forward was stored;
  - if the `registration_complete` reply throws, the registration state is not removed;
  - if `answerCbQuery` or the `editMessageText` of `sub_confirm` throws (Telegram rejects the unescaped Markdown of a course name with `_`), the subscriptions are stored but the editing state is not removed, while `HandleSubscriptionSelection` always removes it;
  - if `answerCbQuery` or the `reply` of `reg_skip` or `reg_courses_confirm` throws, the registration is completed but the registration state is not removed, while `HandleCourseSelection` always removes it.
- Markdown rendering, inline and reply keyboards, message layout, `deleteMessage`, images and dates are left out. The rendered texts of `t` are represented by their (key, language) pair.
- Unicode `\p{L}`, `\p{N}` and `toLowerCase` are approximated by concrete definitions.
  - `IsLetter` covers ASCII, the Latin-1 letters (with ª, µ and º), Latin Extended-A and B, the IPA letters, the modifier letters (so the ʻ and ʼ of Uzbek Latin oʻ and gʻ are kept), and Cyrillic with its supplement.
  - `IsDigit` covers the ASCII digits, ¹ ² ³ and ¼ ½ ¾.
  - `ToLowerChar` maps ASCII, Latin-1, Latin Extended-A and Cyrillic with its supplement. It leaves İ (U+0130) as it is; JavaScript lowercases it to two characters. It also leaves out the case pairs of Latin Extended-B.
  - Greek, Armenian, the other scripts, their digits and number forms such as Roman numerals are not modelled.
- `ctx.chat.id.toString() === adminGroupId` compares a string with the environment value. The model compares integer chat ids.
- `last_message_at`, `created_at` and `updated_at` timestamps are left out, because they come from the clock.
- The registration announcements sent to the admin group are left out. They are best-effort sends whose errors the source swallows, and they write no state.
- Async interleaving of handlers is left out: each event is one atomic step.
- The `bot.start` and `bot.help` handlers, the `bot.hears` menu routing, the contact-handler wiring, `mainMenu` and `handleMainMenuCallback` are out of scope. The course, discount, payment and rating commands are out of scope too: they only display text.
- `findUserByThreadId`, `getStats`, `upsertUser`, the news, FAQ, subscription and admin CRUD, the admin web panel, authentication, `index.js` and `migrate.js` are out of scope.
- An absent legacy `name` field of a subscription is the empty string, like every other unset string field.
- UserBot.UserBot.OnMessage: for a consultation route, what was sent to the admin group is stated by `HandleConsultationMessage` and not repeated here.
- UserBot.UserBot.RoutePrivate: for a consultation route, which scripted answers were consumed is not stated. A failed continuation consumes one, and the consultation forward may consume another.
