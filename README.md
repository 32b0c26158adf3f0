# Daily tarot bot: the once-a-day fortune pipeline

This project models the bookkeeping core of a Telegram tarot bot. The bot
gives each user at most one fortune per calendar day. When a user asks, it
checks whether they have already drawn today. If they have not, it draws a
card, records the draw in a JSON store of per-user records, and composes a
message. The message uses a Gemini interpretation when one is available and
the card's classic meaning otherwise. The bot also reports per-user and
aggregate statistics, and it lets the administrator reset the store after
taking a backup.

The repository holds this pipeline twice:

- the `bot/` package: a card model, a user model, a JSON database, and the
  user, AI and fortune services;
- the older single-file `bot.py`, which applies the same rule directly to
  the loaded dict.

Both are modelled. Each Dafny module follows one source file:

| module | source |
|---|---|
| `Cards` | bot/models/card.py |
| `Users` | bot/models/user.py |
| `Storage` | bot/services/database.py |
| `Accounts` | bot/services/user_service.py (and the admin gate of bot/handlers/admin.py) |
| `Ai` | bot/services/ai_service.py |
| `Fortunes` | bot/services/fortune_service.py |
| `Legacy` | bot.py |
| `Messages` | template filling (`str.format`, f-strings) and the count line both bots print |
| `Text`, `Wrappers` | Python string built-ins (`in`, `lower`, `strip`, `str(int)`), Option and Result |

The outside world becomes explicit state or parameters:

- **The JSON file** is a `FileState`: missing, unreadable, undecodable, or
  holding a map from `str(user_id)` to a record. A write either replaces it
  or, when the class's `saveFails` flag is set, leaves it unchanged (the
  source only logs the error).
- **The clock** is a `today` (or `timestamp`) argument.
- **Random choices** are index arguments (`pick`, `cardPick`, `aiPick`,
  `classicPick`).
- **The Gemini client** is an oracle `backend: string -> ModelReply`. For
  each model name it either raises with a message or replies with a text.
- **Configuration** is constructor arguments: the library being installed,
  the API key, the administrator id, and the model list.

Classes model the objects whose fields the source assigns: `User`,
`Database`, `UserService`, `AIService`, `FortuneService` and the legacy
`LegacyBot`. Value functions (`FromDict`, `ToDict`, `Recorded`, `Fetched`,
`Interpretation`, `ComposedMessage`, …) specify the methods and carry the
lemmas.

Four behaviours are kept exactly as the code has them:

- `get_daily_fortune` records the draw before it composes the message
  (bot/services/fortune_service.py:79 then :82). If composing raises, the
  draw therefore stays recorded. `GetDailyFortune` states this.
- The `ai_used` flag of a new fortune is `ai_enabled`, not whether the AI
  text was used (bot/services/fortune_service.py:93). A fortune that fell
  back to the classic text is still labelled as a Gemini interpretation when
  AI is enabled.
  `FormatFortuneResponse` and `GetDailyFortune` state this.
- `reset_with_backup` writes the backup under a bare file name
  (bot/services/database.py:78-79), so it lands in the working directory and
  not next to the store's file. `BackupName` states this.
- `load_all_data` in the package treats an unreadable file as empty
  (bot/services/database.py:35-37). The legacy `load_user_data` catches only
  a missing file and a decoding error (bot.py:43-52), so an unreadable file
  raises there. `Database.LoadAllData` and `LegacyBot.LoadUserData` state
  this.

## Model

| member | source | states |
|---|---|---|
| Text.TrimStart | bot/services/ai_service.py:80-81 | the result is a suffix of the input, everything cut before it is whitespace, and it does not start with whitespace |
| Text.TrimEnd | bot/services/ai_service.py:80-81 | the result is a prefix of the input, everything cut after it is whitespace, and it does not end with whitespace |
| Text.Strip | bot/services/ai_service.py:80-81 | the result is no longer than the input and neither starts nor ends with whitespace |
| Text.StripEmpty | bot/services/ai_service.py:80-81 | stripping gives the empty string exactly when the text is all whitespace, so a whitespace-only reply becomes an empty interpretation |
| Text.IntToStringInjective | bot/services/database.py:50 | distinct user ids give distinct `str(user_id)` keys |
| Cards.AnyWordInMeans | bot/models/card.py:39-47 | the keyword scan returns true exactly when some keyword occurs in the name |
| Cards.DetermineCardType | bot/models/card.py:39-47 | a name is minor arcana exactly when one of the four suit words occurs in it |
| Cards.DetermineSuit | bot/models/card.py:49-60 | cups when the cups word occurs; pentacles when it does not and the pentacles word does; swords likewise after both; checked in that priority order |
| Cards.SuitIffMinor | bot/models/card.py:39-60 | a name yields a suit exactly when it yields the minor arcana |
| Cards.NewCard | bot/models/card.py:31-38 | a given arcana or suit is kept; a missing arcana is derived from the name; a missing suit is derived only for a minor card and stays missing for a major one |
| Cards.DeckCardClassified | bot/models/card.py:31-47 | a deck card built from name and meaning alone is minor exactly when a suit word occurs in its name, and has a suit exactly when it is minor |
| Cards.IsMajorArcana | bot/models/card.py:62-65 | true exactly for a card whose arcana is not minor; `IsMinorArcana` makes it the complement of minor, and `DeckCardClassified` says which deck cards are major (no suit word in the name) |
| Cards.IsMinorArcana | bot/models/card.py:62-70 | exactly one of major and minor holds of every card |
| Cards.SuitEmoji | bot/models/card.py:72-81 | one emoji; the plain card emoji exactly when the card has no suit; never the major-arcana emoji |
| Cards.TypeEmoji | bot/models/card.py:83-88 | the crystal ball exactly for a major card, the suit emoji otherwise |
| Cards.Show | bot/models/card.py:90-93 | the type emoji, one space, then the card's name |
| Users.NewRecord | bot/models/user.py:20-23 | a missing creation date becomes today and a given one is kept; every other field is as given |
| Users.FreshUserEligible | bot/models/user.py:14-32 | a user created with only an id has no draws, no last date, today's creation date, and may draw |
| Users.ToDict | bot/models/user.py:39-41 | every field becomes a key, so the dict is never empty |
| Users.FromDict | bot/models/user.py:43-52 | the id comes from the caller; a missing total reads as 0 and a missing creation date as today; the other keys are copied |
| Users.RoundTrip | bot/models/user.py:39-52 | reading back a stored record gives the same record, on any later day |
| Users.Recorded | bot/models/user.py:34-37 | the last date becomes today and the count grows by one; nothing else changes; the user may not draw again today |
| Users.User.constructor | bot/models/user.py:10-23 | the object holds the record `NewRecord` describes |
| Users.User.FromData | bot/models/user.py:43-52 | a fresh object holding `FromDict` of the data |
| Users.User.CanGetFortuneToday | bot/models/user.py:25-32 | true exactly when there is no last date or it is not today |
| Users.User.UpdateFortuneDate | bot/models/user.py:34-37 | the fields become `Recorded` of the old ones, and the user may not draw again today |
| Users.User.Data | bot/models/user.py:39-41 | the dict form of the object's fields |
| Storage.KeyInjective | bot/services/database.py:50-55 | distinct users never share a key in the store |
| Storage.Loaded | bot/services/database.py:23-37 | a stored map loads as itself; a missing, unreadable or undecodable file loads as no users |
| Storage.Get | bot/services/database.py:47-50 | a record is found exactly when the user's key is present, and it is the stored one |
| Storage.Put | bot/services/database.py:52-56 | the user's record becomes the new one and every other user's record is kept |
| Storage.Remove | bot/services/database.py:58-69 | the user's record is gone and every other user's record is kept |
| Storage.AfterSave | bot/services/database.py:39-45 | when opening the file for writing fails, the file is left as it was; otherwise the file loads as the saved map |
| Storage.PutTwice | bot/services/database.py:52-56 | saving a user twice keeps only the second record |
| Storage.BackupName | bot/services/database.py:77-78 | `users_data_backup_`, the timestamp, then `.json`; a bare name with no directory part |
| Storage.Database.constructor | bot/services/database.py:18-21 | the store starts from the given file, backups and failure flags |
| Storage.Database.LoadAllData | bot/services/database.py:23-37 | never raises and returns `Loaded` of the file |
| Storage.Database.SaveAllData | bot/services/database.py:39-45 | never raises; the file becomes `AfterSave` of the map |
| Storage.Database.GetUserData | bot/services/database.py:47-50 | the user's record in the loaded map, if any |
| Storage.Database.SaveUserData | bot/services/database.py:52-56 | the file is rewritten with only this user's record replaced |
| Storage.Database.DeleteUser | bot/services/database.py:58-69 | true exactly when the user was stored; then only that record is removed, otherwise nothing is written |
| Storage.Database.ResetWithBackup | bot/services/database.py:71-85 | no file: empty name and nothing changes; a failing copy raises with nothing changed; a failing removal raises after the backup exists; otherwise the old file is kept under the backup name and the store is empty |
| Storage.SavedThenRead | bot/services/database.py:47-56 | a record saved through a working write reads back unchanged |
| Storage.ResetKeepsSnapshotInBackup | bot/services/database.py:71-85 | on a store whose copy and removal go through, a reset of a readable file returns the backup's name, the store then loads as no users, and the backup loads as the map that was there before |
| Accounts.Fetched | bot/services/user_service.py:25-45 | an unknown or empty record gives a new user with no draws, no last date, today's creation date and the given name; a known user keeps the stored date, count (0 when missing) and creation date (today when missing), and only a non-empty given name replaces the stored one |
| Accounts.FetchWrites | bot/services/user_service.py:28-42 | the record is written back always for a new user, and for a known one exactly when a non-empty given name differs from the stored name |
| Accounts.AfterFetch | bot/services/user_service.py:25-49 | a write that goes through leaves the fetched record under the user's key; without a write, or when it fails, the file is unchanged; no other user's record ever changes |
| Accounts.FetchUnknown | bot/services/user_service.py:36-43 | a new user may draw and is written to the store |
| Accounts.FetchStable | bot/services/user_service.py:25-49 | fetching again what a fetch wrote gives the same record and writes nothing |
| Accounts.FetchedTotal | bot/services/user_service.py:25-45 | the fetched count is the stored `total_fortunes`, or 0 |
| Accounts.StatsOf | bot/services/user_service.py:63-71 | the record's count, last date and creation date, and whether it may draw today |
| Accounts.SumOverRemove | bot/services/user_service.py:73-92 | a sum over the records does not depend on the order in which they are visited |
| Accounts.ActiveAtMostAll | bot/services/user_service.py:82-85 | the number of users active on a day is between 0 and the number of users |
| Accounts.SumOverPut | bot/services/user_service.py:73-92 | replacing one record changes a sum by the difference of that record's old and new weights |
| Accounts.RecordedDrawAddsOne | bot/services/user_service.py:56-61 | a recorded draw that is written adds exactly one to the total number of draws, for a new user as for a known one |
| Accounts.UserService.constructor | bot/services/user_service.py:19-24 | the service holds the given store and administrator |
| Accounts.UserService.SaveUser | bot/services/user_service.py:47-49 | the user's dict form replaces their stored record |
| Accounts.UserService.GetUser | bot/services/user_service.py:25-45 | a fresh user object holding `Fetched` of the stored record; the file is written exactly as `AfterFetch` says |
| Accounts.UserService.CanGetFortune | bot/services/user_service.py:51-54 | true exactly when the fetched record's last date is not today, and always for an unknown user; an unknown user is created on the way |
| Accounts.UserService.UpdateFortuneDate | bot/services/user_service.py:56-61 | the file holds the fetched record with today's draw recorded, and every other record unchanged |
| Accounts.UserService.GetUserStats | bot/services/user_service.py:63-71 | `StatsOf` the fetched record, with the file written as the fetch says |
| Accounts.UserService.GetAllStats | bot/services/user_service.py:73-92 | the number of records, the sum of their counts (a missing count is 0), and the number whose last date is today, which is at most the number of records |
| Accounts.UserService.ResetDatabase | bot/services/user_service.py:94-109 | any exception from the reset becomes an error report: a copy failure (also for an unreadable file) leaves the file and the backups unchanged; a removal failure leaves the file and adds the backup; a success leaves an empty store and the old file under the backup's name; no file gives an empty name and changes nothing |
| Accounts.UserService.IsAdmin | bot/services/user_service.py:111-113 | true exactly when an administrator is configured and it is this user |
| Accounts.AdminReset | bot/handlers/admin.py:29-31 | the reset runs exactly for the administrator, with every outcome `ResetDatabase` states; anyone else changes neither the store nor the backups |
| Ai.FirstAnswering | bot/services/ai_service.py:67-87 | the index of the first model that replies with a non-empty text; every model before it raised or replied empty |
| Ai.Interpretation | bot/services/ai_service.py:41-94 | nothing when AI is off; with AI on, an interpretation exists exactly when some model answers, and it is the stripped answer of the earliest one |
| Ai.AllRaisingGivesNone | bot/services/ai_service.py:85-90 | when every model raises the result is no interpretation, never an exception |
| Ai.ClassifyError | bot/services/ai_service.py:96-109 | the error class is the first of quota, authentication, safety and not-found whose marker words occur in the lower-cased message, else other |
| Ai.GenerateCapable | bot/services/ai_service.py:120-122 | every name returned belongs to a listed model that supports `generateContent`, and every such model's name is returned |
| Ai.GenerateCapableOne | bot/services/ai_service.py:120-122 | one model gives its name exactly when it supports `generateContent`, and nothing otherwise |
| Ai.GenerateCapableConcat | bot/services/ai_service.py:120-122 | the filter of a concatenation is the concatenation of the filters, so names keep listing order and each capable model contributes its name once, where it stands |
| Ai.AIService.AiAvailable | bot/services/ai_service.py:140-143 | available exactly when the library is installed and the key is set and non-empty |
| Ai.AIService.AiEnabled | bot/services/ai_service.py:140-148 | enabled exactly when the toggle is on and the library and a non-empty key are present |
| Ai.AIService.constructor | bot/services/ai_service.py:22-39 | AI is on exactly when the library and a key are present, configuring did not raise, and interpretations are wanted |
| Ai.AIService.GenerateInterpretation | bot/services/ai_service.py:41-94 | the result is `Interpretation`; nothing is asked when AI is off; the models are asked in order up to the first that answers |
| Ai.AIService.GetAvailableModels | bot/services/ai_service.py:111-128 | nothing when AI is unavailable or the listing raises, else the generation-capable names in order |
| Ai.AIService.ToggleAi | bot/services/ai_service.py:130-138 | without AI available nothing changes and the answer is false; otherwise the toggle flips and its new value is returned |
| Ai.FirstAnsweringAt | bot/services/ai_service.py:67-87 | an index before which no model answers, and which is the end or answers, is the first answering index |
| Ai.ToggleTwice | bot/services/ai_service.py:130-138 | toggling twice restores the toggle |
| Messages.Format | bot/services/fortune_service.py:57-62 | filling succeeds exactly when every placeholder has an argument; otherwise it raises |
| Messages.FormatShows | bot/services/fortune_service.py:57-62 | every argument a template names occurs in the filled text |
| Messages.NoteFor | bot/services/fortune_service.py:126-130 | the welcome line exactly when the count is 1, otherwise the line with the count |
| Fortunes.FormatAiFortune | bot/services/fortune_service.py:48-57 | every AI phrasing shows the card's name and the interpretation |
| Fortunes.FormatClassicFortune | bot/services/fortune_service.py:59-62 | raises exactly when the template has a placeholder other than name and meaning; otherwise shows each of the two it names |
| Fortunes.ComposedMessage | bot/services/fortune_service.py:36-46 | the AI phrasing, containing the interpretation and the name, exactly when AI is enabled and the interpretation is non-empty; otherwise the classic text, which shows the card's meaning whenever its template asks for it; `None` when the classic template raises |
| Fortunes.DrawnRecord | bot/services/fortune_service.py:64-94 | the record a new fortune saves has one more draw than was stored, today's date and a creation date, and may not draw again today |
| Fortunes.RefetchKnown | bot/services/fortune_service.py:64-82 | for a known user the second fetch, with the name, sees what the eligibility check's fetch saw |
| Fortunes.DrawnReadsBack | bot/services/fortune_service.py:79-85 | the recorded draw reads back as itself without a write and blocks a second draw the same day |
| Fortunes.FormatFortuneResponse | bot/services/fortune_service.py:111-134 | both replies greet the given user name; the waiting reply exactly when the result is not a success, with its count and date; otherwise the message, the welcome line exactly when the count is 1, and the Gemini label exactly when `ai_used` |
| Fortunes.FortuneService.constructor | bot/services/fortune_service.py:21-30 | one card per deck entry, in order, each built from its name and meaning |
| Fortunes.FortuneService.DrawRandomCard | bot/services/fortune_service.py:32-34 | the drawn card is the deck's card at the chosen index |
| Fortunes.FortuneService.GenerateFortuneMessage | bot/services/fortune_service.py:36-46 | the message is `ComposedMessage` of whether AI is enabled and the interpretation the models give |
| Fortunes.FortuneService.GetDailyFortune | bot/services/fortune_service.py:64-94 | already drawn today: statistics and no write; otherwise the result is a new fortune unless composing raises, the draw is recorded for this user only, composing raises exactly when the composed message does even though the draw stays recorded, and a new fortune carries the drawn card, the composed message, `ai_used` equal to `ai_enabled` and the updated statistics |
| Fortunes.SameDayTwice | bot/services/fortune_service.py:64-94 | after a recorded draw a second request the same day is turned away, reporting one more draw than was stored |
| Legacy.LegacyLoaded | bot.py:43-52 | a missing or undecodable file reads as no users; an unreadable one raises; a stored map reads as the package's store reads it |
| Legacy.LegacyEligible | bot.py:62-76 | an unknown user may draw; otherwise the package's rule on the stored date (no date, or not today) holds or the stored date is empty |
| Legacy.EligibilityAgrees | bot.py:62-76 | with a non-empty date the legacy rule agrees with the package's: a user may draw unless the stored last date is today |
| Legacy.Bumped | bot.py:78-89 | the entry is created if absent; the last date becomes today; the count (0 when missing) grows by one; the other keys are kept |
| Legacy.UpdateAgrees | bot.py:78-89 | on a known entry the legacy update and the package's update agree on the last date and the count |
| Legacy.StatsFor | bot.py:91-99 | the stored entry, or a zero count and no last date for an unknown user |
| Legacy.GenerateFortune | bot.py:103-112 | every phrasing of the effective definition shows the card's name and meaning |
| Legacy.DisplayName | bot.py:226 | the first name when it is non-empty, otherwise the friendly default |
| Legacy.LegacyBot.constructor | bot.py:29-30 | the bot starts from the given file, write-failure flag and deck |
| Legacy.LegacyBot.LoadUserData | bot.py:43-52 | returns `LegacyLoaded` of the file |
| Legacy.LegacyBot.SaveUserData | bot.py:54-60 | never raises; the file becomes `AfterSave` of the map |
| Legacy.LegacyBot.CanGetFortune | bot.py:62-76 | raises exactly for an unreadable file; otherwise true for an unknown user or a missing or empty last date, else true exactly when the last date is not today |
| Legacy.LegacyBot.UpdateUserFortuneDate | bot.py:78-89 | raises with no write for an unreadable file; otherwise only this user's entry is replaced by `Bumped` of it |
| Legacy.LegacyBot.GetUserStats | bot.py:91-99 | raises exactly for an unreadable file; otherwise `StatsFor` the stored entry |
| Legacy.LegacyBot.Fortune | bot.py:223-272 | already drawn today: the waiting reply with the stored count and no write; otherwise the draw is recorded before the message is generated, the message shows the card's name and meaning, and the welcome line appears exactly when the count read back is 1 |
| Legacy.FirstFortuneWelcomed | bot.py:223-268 | a user the store has never seen, asking while the file is readable and writes go through, gets a fortune with the welcome line, and the store then holds a count of 1 for them |
| Legacy.SameDayTwice | bot.py:223-272 | when writes go through, a delivered fortune is followed the same day by the waiting reply with one more draw than was stored |

## Left out

- The Telegram transport is not modelled: the handlers under `bot/handlers/`, `bot/bot.py`, `main.py`, and the start, help, deck, stats and plain-text handlers and `main` of `bot.py`. The one exception is the administrator gate of `/reset`, modelled by `AdminReset`.
- Reply texts are modelled by their structure (`Response`, `Reply`, `CountNote`), not as Russian strings. `get_waiting_message` and `get_stats_text` are text only. The prompt text and the generation parameters of the Gemini request are left out for the same reason.
- The AI and legacy templates are paraphrased in English. Their structure is kept: which placeholders each one has, and in what order.
- The deck data (`tarot_cards`, `fortune_templates`) is not part of this model. The deck and the classic templates are constructor arguments.
- Logging is left out. `_handle_ai_error` is modelled only as its classification, `ClassifyError`.
- A write that fails after the file was opened (inside `json.dump`, bot/services/database.py:42-43 and bot.py:57-58) leaves the file truncated or partly written. The next load then reads it as undecodable, so as no users. `saveFails` models only a failure to open the file, which leaves it unchanged.
- A JSON null and a key the record type does not know both read as a missing key. So a stored record whose keys are all null or all unknown is modelled as empty. Python finds such a dict truthy at `if user_data:` (bot/services/user_service.py:29): it treats the user as known and writes nothing. The model creates a new record and writes it instead.
- JSON encoding and decoding are left out: the file is a state, not bytes. A record whose `total_fortunes` is JSON null reads like a missing count. The source would then fail when adding 1 to `None`.
- A store file holding JSON that is not an object of objects is left out.
- `Database.get_stats` (file size, user count) is left out because nothing in the pipeline uses it. The `database_file` entry of `get_all_stats` is left out as well.
- Concurrent requests racing on the store file are left out. Every operation is modelled as running alone.
- `Text.Lower`: lowers `A`-`Z` and the Kelvin sign (U+212A), the characters whose lower case is a single ASCII letter, and keeps every other character. Python's `lower` also lowers other scripts, sometimes to two characters (U+0130 becomes `i` and a combining dot). The error markers are ASCII and contain no `i` followed by that dot, so the chosen error class, which only decides what is logged, is the same.
- `Fortunes.FortuneService.GetDailyFortune`: whether a write fails is fixed for the store (`Storage.Database.saveFails`), so within one request either every write goes through or none does. The source catches each write on its own (bot/services/database.py:39-45), and one package request may write three times (bot/services/user_service.py:42, then :34 and :60). A request whose creating write succeeds and whose record write fails is not modelled. The source then replies with a count of 0 and lets the user draw again the same day. The `saveFails` cases of its contract hold only under this all-or-nothing reading. The legacy `fortune` handler writes once per request, so it is not affected.
- `Legacy.LegacyBot.Fortune`: the first `generate_fortune` (bot.py:38-41) is replaced by the later definition (bot.py:103-112) before anything calls it, and the two lines after `get_user_stats`'s return (bot.py:100-101) never run; neither is modelled. `draw_random_card` (bot.py:34-36), called at bot.py:250, is modelled as the deck entry at `cardPick`.
- Text.Strip: its own contract does not repeat that only whitespace is cut away on either side; the contracts of `TrimStart` and `TrimEnd`, which it composes, state that.
