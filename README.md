# studyquest-backend core, modelled in Dafny

This project models the gamification and content core of the studyquest-backend NestJS
service and proves properties of it:

- **Streaks** (`UsersService`). `updateStreakHybrid` keeps a daily learning streak.
  - A call on the same calendar day changes nothing.
  - A gap of at most 7 days extends the streak; a longer gap restarts it at 1.
  - `maxStreak` follows the streak.
  - Gems are paid for the special milestones 3, 10, 50 and 365, and 5 gems for every completed week.
  - `getStreakStatus` reports whether the user learned today; `updateStats` overwrites the supplied columns.
- **Store** (`StoreService`). `getAvailableItems` lists the catalogue in display order.
  `purchaseItem` checks the item, the user and the balance in that order. It then deducts
  the cost, lets a cosmetic item set the avatar, and appends an inventory row.
- **Learning** (`LearningService`). `completeQuiz` credits the score as XP and records the
  attempt. `completeFlashcard` credits 10 XP. `getUserXP` reads the XP back. Each has its
  BadRequest and NotFound paths.
- **Leaderboards** (`Leaderboards`). `getTopUsers` lists the users by XP, highest first, ranked
  1..n. `getUserRank` ranks one user as one plus the number of users with strictly more XP.
- **AI generation** (`AiService`). These are the guards of `generateQuiz` and
  `suggestLearningPath`, and the cleaning of the generated text: markdown fences are
  removed, then the text is trimmed. The parsed document is validated and normalised
  (`processQuizData`, `processPathData`). The model also covers the exception each flow ends in.
- **Question routes** (`QuestionController`). This covers how each route turns its path and
  query strings into the question-service call:
  - `parseInt` with NaN rejection
  - the `lessonIds` comma list
  - the `limit`, `offset` and `onlyActive` defaults
  - the BadRequest messages

Supporting modules model the JavaScript primitives the services rely on:

- `Text`: `trim`, `split(',')` and its inverse join, and removal of a literal marker by a global regular expression.
- `JsNumber`: `parseInt` and the decimal rendering of integers.
- `JsArray`: `Array.prototype.map` with a callback that may throw.
- `Sorting`: a sort by a two-level key, which stands in for SQL `ORDER BY`.
- `Wrappers`: `Option` and `Result`.

Repositories are modelled as follows:

- The users table is a map from id to a `User` object whose columns the methods update in place (`UserModel.User`).
- Tables that are only read are sequences of rows.
- Tables that are appended to are `seq` fields.

Dates are integer day numbers, and `today` and `now` are parameters. The HTTP call to the
generation endpoint and `JSON.parse` are parameters too (`GeminiReply`, `parse`). The
exceptions a flow throws are values of `Result` types.

## Model

| member | source | states |
|---|---|---|
| UsersService.UsersServiceState.UpdateStreakHybrid | src/users/users.service.ts:69-145 | Unknown user gives null. Otherwise the user's new columns and the returned result are those of `StreakStep`, and every other user is unchanged. |
| UsersService.StreakStep | src/users/users.service.ts:73-141 | The step never touches XP or the avatar, never lowers gems or `maxStreak`, keeps `maxStreak >= currentStreak` after a day-advancing call, reports the new streak with `learnedToday`, and a reward is always a positive amount that is exactly what gems grew by. |
| UsersService.SameDayIsNoOp | src/users/users.service.ts:78-85 | Activity already recorded today, or none recorded at all (the gap is then 0): nothing changes, the result is the current streak with `learnedToday` and no reward. |
| UsersService.SecondCallSameDayIsNoOp | src/users/users.service.ts:78-85 | A second call on the same day leaves the first call's state as it is and pays no reward. |
| UsersService.DayAdvancingStep | src/users/users.service.ts:87-96 | On a day-advancing call, a gap of more than 7 days resets the streak to 1, and any other gap (a negative one included) adds one. The day is recorded, `maxStreak` becomes the max of the old maximum and the new streak, and XP and avatar are untouched. |
| UsersService.MaxStreakInvariant | src/users/users.service.ts:95-96 | `maxStreak >= currentStreak` is preserved and `maxStreak` never decreases. |
| UsersService.MilestoneGems | src/users/users.service.ts:103-111 | The milestone table pays a non-zero amount exactly at streaks 3, 10, 50 and 365, and never a negative one. |
| UsersService.MilestoneNeverWeekly | src/users/users.service.ts:103-129 | No special milestone is a multiple of 7, so at most one bonus is earned per call. |
| UsersService.BonusTotal | src/users/users.service.ts:99-129 | The bonus total is the milestone amount plus 5 gems for every multiple of 7 from 7 upward. It is never negative. |
| UsersService.StreakReward | src/users/users.service.ts:131-141 | Gems grow by exactly the bonus total. The reward is null exactly when the total is 0, and otherwise carries the total, the new streak and the bonuses in push order. |
| UsersService.NoActivityNeverStartsStreak | src/users/users.service.ts:74-85 | A user with no recorded activity stays unchanged, whatever sequence of days they call on. |
| UsersService.NextDayStep | src/users/users.service.ts:87-141 | Activity on the day after the last one adds one to the streak, records that day, and pays that streak's bonuses. |
| UsersService.ConsecutiveDays | src/users/users.service.ts:87-141 | Activity on k consecutive days raises the streak by k, pays every bonus earned on the way, and records the last day. |
| UsersService.UsersServiceState.GetStreakStatus | src/users/users.service.ts:42-66 | Null exactly for an unknown user. Otherwise the user's current streak, max streak, last activity date and gems, with `learnedToday` holding exactly when the last activity is today. |
| UsersService.StatusAfterStep | src/users/users.service.ts:42-85 | Right after `updateStreakHybrid`, the status reports learned-today exactly when the user had an activity before. |
| UsersService.StatusOf | src/users/users.service.ts:54-57 | `learnedToday` holds iff the last activity date equals today. |
| UsersService.ApplyStats | src/users/users.service.ts:26-36 | Each supplied field replaces its column and each omitted one keeps it. The other columns are untouched. |
| UsersService.UsersServiceState.UpdateStats | src/users/users.service.ts:26-36 | The user's row becomes `ApplyStats` of the old row. An unknown id and every other user are unchanged. |
| StoreService.StoreServiceState.GetAvailableItems | src/store/store.service.ts:21-26 | Every listed item is available and every available item is listed. Each available item is listed exactly as often as the catalogue holds it, and the list is ordered by `sortOrder`, then `gemCost`, ascending. |
| StoreService.AvailableOnly | src/store/store.service.ts:22-23 | The filter keeps exactly the available items, each as often as the catalogue holds it. |
| StoreService.FindAvailableItem | src/store/store.service.ts:30 | Finds an available catalogue item with that id, or none exactly when no available item has that id. |
| StoreService.CosmeticAvatarUrl | src/store/store.service.ts:45-48 | An avatar URL is set iff the item is cosmetic and carries a non-empty `avatarUrl`. |
| StoreService.AfterPurchase | src/store/store.service.ts:41-48 | After a purchase the gems are old minus cost, the avatar becomes the cosmetic item's avatar URL when it has one and is otherwise kept, and XP, streaks and the activity date are unchanged. |
| StoreService.StoreServiceState.PurchaseItem | src/store/store.service.ts:29-63 | Errors come in source order: unknown or unavailable item (NotFound), then unknown user (NotFound), then balance below cost (BadRequest). On error nothing changes. On success the row becomes `AfterPurchase`, the remaining gems are old minus cost (never negative), and exactly one inventory row with quantity 1 is appended. |
| StoreService.SameElements | src/store/store.service.ts:21-26 | Reordering the filtered catalogue keeps its members. |
| LearningService.LearningServiceState.CompleteQuiz | src/learning/learning.service.ts:27-51 | Missing or zero userId or quizId, or an undefined score, gives BadRequest. An unknown user gives NotFound, and nothing changes on either error. Otherwise XP grows by the score and one attempt with `xpEarned == score` is appended. XP not earned through recorded attempts is preserved for every user, and `getUserXP` then returns the new XP. |
| LearningService.RecordedXpAppend | src/learning/learning.service.ts:42-48 | Recording an attempt adds its XP to its own user's recorded total only. |
| LearningService.LearningServiceState.CompleteFlashcard | src/learning/learning.service.ts:53-67 | Missing or zero arguments give BadRequest and an unknown user gives NotFound. Otherwise exactly 10 XP is added, other users are unchanged, and `getUserXP` returns the new XP. |
| LearningService.LearningServiceState.GetUserXp | src/learning/learning.service.ts:69-78 | BadRequest for a falsy id and NotFound for an unknown one. Otherwise the id with the user's XP, and Ok exactly in that case. |
| Leaderboards.TopRows | src/leaderboards/leaderboards.service.ts:52-57 | The query returns min(limit, users) rows drawn from the table, with XP non-increasing. |
| Leaderboards.TopUsersAreTop | src/leaderboards/leaderboards.service.ts:52-57 | Every user left out of the list has at most the XP of the last listed user. |
| Leaderboards.GetTopUsers | src/leaderboards/leaderboards.service.ts:50-76 | The limit defaults to 10. Entry i is row i projected, with rank i+1 and XP non-increasing. |
| Leaderboards.Ranked | src/leaderboards/leaderboards.service.ts:60-75 | Entry i is row i projected with rank i+1, one entry per row. |
| Leaderboards.ViewOf | src/leaderboards/leaderboards.service.ts:65-71 | The avatar is null exactly without a current avatar, and otherwise carries its id, name, emoji, colour and rarity. |
| Leaderboards.GetUserRank | src/leaderboards/leaderboards.service.ts:78-112 | 'User not found' exactly when no row has the id. Otherwise the entry is the projection of a row with that id, ranked one plus the number of users with strictly more XP than that row. |
| Leaderboards.FindPlayer | src/leaderboards/leaderboards.service.ts:86-90 | The lookup by id finds a row with that id, or none exactly when no row has it. |
| Leaderboards.FindPlayerOfMember | src/leaderboards/leaderboards.service.ts:86-90 | With unique ids, looking a row up by its id returns that row. |
| Leaderboards.UserRankBounds | src/leaderboards/leaderboards.service.ts:80-83 | A rank lies between 1 and the number of users, and is 1 iff nobody has more XP. |
| Leaderboards.TiedUsersShareRank | src/leaderboards/leaderboards.service.ts:80-83 | Users with equal XP get the same rank. |
| Leaderboards.TopRankBoundsUserRank | src/leaderboards/leaderboards.service.ts:50-112 | A listed user's rank from `getUserRank` is at most their rank in `getTopUsers`, and smaller only when the entry listed just before has the same XP. |
| Leaderboards.CountAbovePermutation | src/leaderboards/leaderboards.service.ts:80-83 | The count of users above an XP value does not depend on row order. |
| Leaderboards.CountAboveZero | src/leaderboards/leaderboards.service.ts:80-83 | Nobody is counted above an XP value iff every user has at most that XP. |
| Leaderboards.CountAboveInSorted | src/leaderboards/leaderboards.service.ts:55-57 | In the XP-descending order at most i users are above the i-th row. |
| AiService.QuizGuard | src/ai/ai.service.ts:247-254 | The text is checked first: missing, empty or blank text gives 'Text input cannot be empty.'. Then a missing or non-positive userId gives 'Valid userId is required.'. No error iff both checks pass. |
| AiService.PathGuard | src/ai/ai.service.ts:375-382 | The preferences are checked first (missing or empty), then the userId, with the corresponding messages. |
| AiService.QuizCatch | src/ai/ai.service.ts:321-335 | Unauthorized iff an axios error has status 401 or 429, with the 'Unauthorized' or 'Rate Limited' prefix. A plain Error iff status 400. Anything else is InternalServerError 'Failed to generate quiz: ' + message. |
| AiService.AxiosText | src/ai/ai.service.ts:324 | The API's error message when it is non-empty, else the error's own message. |
| AiService.ReplyText | src/ai/ai.service.ts:295-298 | The generated text when it is truthy; a failed request is an axios error; a missing or empty text is the 'Failed to extract' error. |
| AiService.GenerateQuiz | src/ai/ai.service.ts:247-336 | A failed guard is thrown as is. An unknown user becomes InternalServerError 'Failed to generate quiz: User with id N not found'. Unauthorized iff the request failed with 401 or 429; a plain Error iff a guard failed or the status was 400. Success iff every stage succeeds, with `questionCount` equal to the number of questions. |
| AiService.PathCatch | src/ai/ai.service.ts:457-459 | Every error after the guards becomes InternalServerError 'Failed to generate learning path: ' + message. |
| AiService.SuggestLearningPath | src/ai/ai.service.ts:375-460 | A failed guard is thrown as is. Every later error is InternalServerError, including the unknown-user message. Success iff every stage succeeds; the reply's title, description, steps and duration are those `processPathData` produced, it echoes the preferences, and `totalSteps` is the number of steps. |
| AiService.Clean | src/ai/ai.service.ts:341 | The cleaned text is trimmed and never longer than the generated text. |
| AiService.CleanRemovesFences | src/ai/ai.service.ts:341 | The cleaned text contains no triple backtick at any position and is trimmed. |
| AiService.NoFenceAfterRemoval | src/ai/ai.service.ts:341 | After the global fence removal no fence is left, including fences formed by text that a removal joins together. |
| AiService.CleanIdempotent | src/ai/ai.service.ts:341 | Cleaning already cleaned text changes nothing. |
| AiService.ProcessingCleanedText | src/ai/ai.service.ts:338-344 | Processing text that was already cleaned gives the same outcome, for quizzes and paths. |
| AiService.ProcessQuestion | src/ai/ai.service.ts:351-361 | A question is accepted iff it has a non-empty question, an options array of strings and a non-empty answer. The result is those fields trimmed. A null entry is a TypeError; a missing question, options array or answer is 'Invalid question format at index i'; a question that passes that check but holds a value `trim` cannot be called on is a TypeError. |
| AiService.NormaliseQuestion | src/ai/ai.service.ts:356-360 | For a question that passed the format check, success iff the question, every option and the answer are strings, giving each trimmed; otherwise a TypeError. |
| AiService.ProcessQuestions | src/ai/ai.service.ts:351-361 | The question map succeeds iff every question is valid. It then gives one question per input, each its source question trimmed, in order. |
| AiService.FirstInvalidQuestion | src/ai/ai.service.ts:351-354 | A failed question map reports the first invalid question's index: that question fails the format check, and every earlier one is valid. |
| AiService.ProcessQuizDoc | src/ai/ai.service.ts:347-367 | A document is accepted iff it has a `questions` array of valid questions. An object without such an array gives 'Invalid quiz format: questions array not found'. On success `totalQuestions` equals the count of questions, each is its source question trimmed, and `createdAt` is the clock. |
| AiService.ProcessQuizData | src/ai/ai.service.ts:338-373 | Success iff the cleaned text parses into a document that passes the quiz checks. A parse error passes through as the message, and a parsed document gets the document-level outcome. |
| AiService.QuizReportsFirstInvalidQuestion | src/ai/ai.service.ts:351-354 | The reported index is the first invalid question: every earlier one is valid. |
| AiService.TrimValue | src/ai/ai.service.ts:357-359 | `trim` succeeds only on a string, and gives its trimmed text. |
| AiService.TrimEach | src/ai/ai.service.ts:358 | Mapping `trim` succeeds iff every item is a string, and trims each in order. |
| AiService.TrimOptional | src/ai/ai.service.ts:483 | `v?.trim() \|\| undefined` succeeds on undefined, null or a string. It gives undefined when the text trims to empty, else the trimmed text. |
| AiService.TrimResources | src/ai/ai.service.ts:484-486 | Resources are the trimmed strings when they form an array, else undefined. |
| AiService.ProcessStep | src/ai/ai.service.ts:475-488 | A step is accepted iff its title and description are non-empty strings and its optional fields can be trimmed. The result is the step normalised. A null entry is a TypeError; a missing title or description is 'Invalid step format at index i'; any other failure is a TypeError. |
| AiService.NormaliseStep | src/ai/ai.service.ts:480-487 | For a step that passed the format check, success iff its title and description are strings and its optional time and resources can be trimmed, giving the step normalised; otherwise a TypeError. |
| AiService.ProcessSteps | src/ai/ai.service.ts:475-488 | The step map succeeds iff every step is valid. It then gives one normalised step per input, in order. |
| AiService.FirstInvalidStep | src/ai/ai.service.ts:475-478 | A failed step map reports the first invalid step's index: that step fails the format check, and every earlier one is valid. |
| AiService.PathAround | src/ai/ai.service.ts:490-497 | Succeeds iff the title is a string and description and duration are absent, null or strings. The title is then trimmed, the description falls back to '' and the duration to undefined. `totalSteps` counts the steps and the preferences pass through. |
| AiService.ProcessPathDoc | src/ai/ai.service.ts:471-497 | Success iff the title is a non-empty string, `steps` is an array of valid steps, and description and duration can be trimmed. On success each step is its source step normalised, and the fields are as in `PathAround`. A reported invalid step is the step map's error. |
| AiService.ProcessPathData | src/ai/ai.service.ts:462-503 | Success iff the cleaned text parses into a document that passes the checks above; a parse error passes through. |
| AiService.PathReportsFirstInvalidStep | src/ai/ai.service.ts:475-478 | The reported index is the first invalid step. |
| AiService.Field | src/ai/ai.service.ts:347 | Property access yields the own property of an object, else undefined. |
| QuestionController.GetQuestionsByCourseId | src/question/question.controller.ts:15-47 | BadRequest 'Failed to get questions: courseId must be a valid number' iff `parseInt(courseId)` is NaN. Otherwise the paged call with the parsed id and the query defaults (limit 20, offset 0). |
| QuestionController.GetQuestionsByCourseIdSimple | src/question/question.controller.ts:50-74 | The same NaN rejection, then the simple call with the filters and `onlyActive`. |
| QuestionController.ParseIdPair | src/question/question.controller.ts:91-96 | Both ids parse, or the 'courseId and languageId must be valid numbers' message when either is NaN. |
| QuestionController.GetQuestionsByCourseAndLanguage | src/question/question.controller.ts:77-116 | BadRequest iff either id is NaN. Otherwise the paged call with both ids and the query defaults. |
| QuestionController.GetQuestionsFlow | src/question/question.controller.ts:152-181 | BadRequest 'Failed to get questions flow: …' iff either id is NaN, else the flow call. |
| QuestionController.GetLessonsByCourseAndLanguage | src/question/question.controller.ts:184-207 | BadRequest 'Failed to get lessons: …' iff either id is NaN, else the lessons call with `onlyActive`. |
| QuestionController.GetLessonsByCourseId | src/question/question.controller.ts:210-227 | BadRequest iff the course id is NaN, else the lessons call. |
| QuestionController.LessonId | src/question/question.controller.ts:132-137 | A piece is accepted iff `parseInt` of its trimmed text is a number. The error quotes the untrimmed piece: 'Invalid lesson ID: ' + piece. |
| QuestionController.LessonIdList | src/question/question.controller.ts:132-138 | The list parses iff every piece does, giving the ids in order. |
| QuestionController.ParseLessonIds | src/question/question.controller.ts:128-138 | A missing or empty parameter gives 'lessonIds parameter is required'. Otherwise the result is the parse of its comma-separated pieces. |
| QuestionController.ParseLessonIdsFirstInvalid | src/question/question.controller.ts:132-136 | The error reported is the one for the first piece that fails to parse. |
| QuestionController.RenderedIdsParse | src/question/question.controller.ts:132-138 | Decimal renderings of ids contain no comma and parse back to the ids. |
| QuestionController.LessonIdsRoundTrip | src/question/question.controller.ts:128-138 | Joining any non-empty id list with commas and parsing it gives back exactly that list. |
| QuestionController.GetQuestionsByLessonIds | src/question/question.controller.ts:119-149 | An error iff the ids fail to parse, with the 'Failed to get questions by lesson IDs: ' prefix. Otherwise the call with the parsed ids. |
| QuestionController.IntOr | src/question/question.controller.ts:38-39 | `q ? parseInt(q) : fallback`: the fallback for a missing or empty value, else `parseInt`, with NaN passed through. |
| QuestionController.IntOrReadsBack | src/question/question.controller.ts:38-39 | A number written into the query string is read back unchanged. |
| QuestionController.OnlyActive | src/question/question.controller.ts:40 | True for every value except the exact string 'false'. |
| QuestionController.Paging | src/question/question.controller.ts:34-41 | Difficulty is undefined iff not given. Limit and offset fall back to the handler's defaults. Filters and search pass through. |
| QuestionController.GetAllQuestions | src/question/question.controller.ts:248-275 | The paged call with search; the limit defaults to 20. |
| QuestionController.GetAllQuestionsSimple | src/question/question.controller.ts:278-299 | The paged call with the limit defaulting to 50. |
| QuestionController.GetAllQuestionsLimit | src/question/question.controller.ts:318-326 | `parseInt(limit) \|\| 50`: a parsed non-zero limit is used, while 0 or NaN gives 50, so the limit passed on is never 0. |
| JsNumber.ParseInt | src/question/question.controller.ts:27 | Blank text is NaN; text whose first non-blank character is a digit 1-9 gives a non-negative number; a leading '-' never gives a positive one. |
| JsNumber.ParseIntToString | src/question/question.controller.ts:27-31 | `parseInt` of the decimal rendering of any integer is that integer. |
| JsNumber.NatToStringValue | src/question/question.controller.ts:27 | The decimal rendering of n has digit value n. |
| JsArray.MapFrom | src/ai/ai.service.ts:351-361 | Mapping with a throwing callback succeeds iff every callback succeeds. It then gives one result per element, each the callback's value at its index. |
| JsArray.MapFromFirstError | src/ai/ai.service.ts:351-361 | A failed map reports the error of the first failing element; all earlier callbacks succeed. |
| Text.Trim | src/ai/ai.service.ts:357-359 | The result neither starts nor ends with whitespace and is never longer than the input. |
| Text.TrimStartDropsWhitespace | src/ai/ai.service.ts:341 | `trim` drops only whitespace at the start. |
| Text.TrimEndDropsWhitespace | src/ai/ai.service.ts:341 | `trim` drops only whitespace at the end. |
| Text.TrimEmptyIffBlank | src/ai/ai.service.ts:248 | `text.trim() === ''` iff the text is all whitespace. |
| Text.TrimIdempotent | src/ai/ai.service.ts:341 | Trimming twice is trimming once. |
| Text.Split | src/question/question.controller.ts:132 | `split(',')` gives at least one piece, and no piece contains the separator. |
| Text.JoinSplit | src/question/question.controller.ts:132 | Joining the pieces of a split with the separator gives back the text. |
| Text.SplitJoin | src/question/question.controller.ts:132 | Splitting a comma-joined list of comma-free pieces gives back the pieces. |
| Text.RemoveAll | src/ai/ai.service.ts:341 | The global replace only deletes: the result is never longer and holds no character the input does not. |
| Text.RemoveAllAbsent | src/ai/ai.service.ts:341 | Removing a marker that does not occur changes nothing. |
| Sorting.Insert | src/store/store.service.ts:24 | Inserting into a sorted sequence keeps it sorted and adds exactly that element. |
| Sorting.SortBy | src/store/store.service.ts:24 | The sort result is ordered by the key, a permutation of the input, and of the same length. |

## Left out

- Time: calendar days are integers supplied by the caller. `new Date(...)` in local time, the millisecond arithmetic and `Math.floor` of the day difference are not modelled. Nor is a daylight-saving day, on which local midnights are 23 or 25 hours apart.
- Numbers: JavaScript numbers are unbounded integers here, so floating point, precision loss and non-integer scores or XP are not modelled. `parseInt` is modelled for its sign, decimal and `0x` forms; its handling of digits beyond 2^53 is not modelled.
- `null` and `undefined` are both `None`. `completeQuiz` with a `null` score, which adds nothing to the XP, is not distinguished from an undefined score.
- Persistence: the HTTP request to the generation endpoint, `JSON.parse`, the repositories' SQL and `save` are parameters or in-memory tables. The ids and `createdAt` of saved quizzes, paths and inventory rows are not modelled.
- AiService.TYPE_ERROR_TEXT: the message of a JavaScript runtime TypeError (reading a property of null, `trim` on a non-string) belongs to the engine. One fixed text stands for it.
- AiService.ProcessPathData: an `InvalidPath` error is not related back to the document in the contract. Only success (iff the document passes every check), parse errors and the first invalid step are stated.
- UsersService.StreakStep: the `reason` strings and the `type` of each bonus are represented by `BonusKind`, not rendered as text.
- The other members of the four services and the controller are not part of this model. These are `getProfile`, `updateAvatar`, `getUserItems`, `getCourseProgress` and the other read-through queries, and the `health`, `raw`, `raw/with-relations` and `test/raw` routes. The question service behind the routes is a `ServiceCall` value, and its own errors are not modelled.
- Daily quests, confirmation of learning paths and the stored-data readers of `AiService` are not part of this model.
- Leaderboards.TopRows: TypeORM's behaviour for a limit of 0 or below is not modelled, so `TopRows` and `GetTopUsers` require `limit >= 1`. The order among users with equal XP is left to the database; the model fixes one order.
- Concurrency between requests (two purchases racing on one balance) is not modelled; each operation runs alone.
- `updateStreakHybrid` is modelled as written for a user with no recorded activity: the day difference is then 0, the call returns early, and such a user's streak never starts (`NoActivityNeverStartsStreak`).
