# FitTracker in Dafny

FitTracker is a fitness-tracking web application. Its server side exists
twice:
- a modular Express back end (`src/backend`). It has a user router, four
  identical per-resource routers for activities, goals, nutrition and
  progress, and a Mongoose model per resource.
- a single-file Express server (`src/server.js`). It has its own schemas, a
  bearer-token gate, activity, goal and daily-nutrition routes, a canned-advice
  chat route, static files and a health check.

The browser side has:
- the dashboard script (today's totals, recent activities, step tracking,
  workout tabs, goals and nutrition);
- the login/registration page script (form checks and offline fallbacks);
- the chat script (a local fallback when the chat route fails);
- a React `Activities` component.

This project models those parts in Dafny and proves what they promise.

- **Documents.** A document is a map from field names to values
  (`Json.Doc`). A schema is a value (`Schemas.Schema`) with:
  - field types;
  - required fields;
  - enums;
  - defaults;
  - the `timestamps` option.

  Creating a document is `Build`: defaults first, then the `createdAt` and
  `updatedAt` stamps. An update is `Touch`. Validation is `Validates`. Cast
  failures on update are `Castable`.
- **Collections and ids.** Each collection is a map from ids to documents. Its
  ids come from a counter, so id order is insertion order.
- **Stateful parts are classes.** Each class holds the fields the source
  mutates, and its methods are proved against the functions above:
  - a router (`ResourceRoutes.ResourceRouter`);
  - the user store (`UserRoutes.UserStore`);
  - the single-file server (`Monolith.FitServer`);
  - the dashboard globals (`Dashboard.DashboardState`);
  - the auth page mode (`AuthPage.AuthForms`);
  - the chat panel (`AiChat.ChatPanel`);
  - the React state (`ActivitiesView.ActivitiesPanel`).
- **Outside services are parameters.** These are given to the model rather
  than computed by it:
  - password hashing and comparison;
  - token signing and verification;
  - the clock;
  - `Math.random`;
  - whether a static file exists;
  - what `fetch`/`axios` returned.

## Model

| member | source | states |
|---|---|---|
| Json.Assign | src/server.js:290 | `Object.assign`: the merged document has the keys of both inputs; body fields win and the others are kept |
| Json.Matching | src/backend/routes/activityRoutes.js:8 | the records listed are exactly the caller's, each with its stored document, in insertion order |
| Json.MatchingComplete | src/backend/routes/activityRoutes.js:8 | every record the caller owns appears in the list |
| Json.MatchingAllOwned | src/backend/routes/goalRoutes.js:8 | the list holds all and only the caller's records, ordered by id |
| Json.FindByEmail | src/backend/routes/userRoutes.js:13 | finds a user with that email below the bound, or no such user exists; shared by `src/server.js:127` |
| Json.FindsUnique | src/server.js:165-172 | with unique emails, the lookup finds exactly the user with that email |
| Json.FindsAdded | src/backend/routes/userRoutes.js:13-27 | after registering a new email, the lookup finds the new user, and emails stay unique |
| Schemas.WithDefaults | src/backend/models/goalModel.js:24-27 | a missing field with a default gets the default value (or the current time); every given field is kept |
| Schemas.StampNew | src/backend/models/activityModel.js:29 | a new document gets `createdAt` and `updatedAt`, both equal to the creation time; other fields are unchanged |
| Schemas.Touch | src/backend/routes/activityRoutes.js:41-45 | an update takes the body's fields, keeps the rest, never changes `createdAt` and sets `updatedAt` to now |
| Schemas.TouchKeeps | src/backend/routes/activityRoutes.js:41-45 | a field the body does not mention keeps its reference, so an update without `user` keeps the owner |
| Schemas.TouchCastable | src/backend/routes/activityRoutes.js:41-45 | an update of a well-typed document by a well-typed body stays well-typed |
| Schemas.ValidRef | src/backend/models/activityModel.js:4-8 | a validated document holds a reference in each required reference field |
| Schemas.ValidEnum | src/backend/models/goalModel.js:9-13 | a validated document's required enum field holds one of the allowed strings |
| Schemas.ValidGoalType | src/backend/models/goalModel.js:9-13 | a saved goal's `type` is weight, workout or nutrition |
| Schemas.BuiltGoalStatus | src/backend/models/goalModel.js:24-28 | a goal created without `status` is "in-progress"; a validated goal's status is one of the three allowed |
| Schemas.BuiltDateDefault | src/backend/models/activityModel.js:22-25 | activities, nutrition and progress entries created without `date` are dated now |
| Schemas.ProgressNeedsOnlyOwner | src/backend/models/progressModel.js:4-8 | a progress entry with only its owner validates, since no other field is required |
| Schemas.MissingRequired | src/backend/models/nutritionModel.js:4-20 | a document lacking a required field never validates |
| ResourceRoutes.Spread | src/backend/routes/activityRoutes.js:18-21 | `{ user: caller, ...body }`: a `user` in the body overrides the caller; otherwise the caller owns the record |
| ResourceRoutes.SchemaOf | src/backend/models/nutritionModel.js:3-30 | every resource schema requires a `user` reference and keeps timestamps |
| ResourceRoutes.ResourceRouter.List | src/backend/routes/activityRoutes.js:6-13 | answers 200 with exactly the caller's records, in insertion order |
| ResourceRoutes.ResourceRouter.Create | src/backend/routes/activityRoutes.js:16-27 | a valid document is stored under a fresh id and answered 201; an invalid one changes nothing and answers 400 |
| ResourceRoutes.ResourceRouter.Update | src/backend/routes/activityRoutes.js:30-50 | unknown id is 404; another user's record is 401; a badly typed body is 400; otherwise the record is updated in place and returned |
| ResourceRoutes.ResourceRouter.Delete | src/backend/routes/activityRoutes.js:53-69 | unknown id is 404; another user's record is 401; otherwise exactly that record is removed |
| ResourceRoutes.ValidOwned | src/backend/models/progressModel.js:4-8 | every stored resource has an owner |
| ResourceRoutes.TouchKeepsInvariant | src/backend/routes/goalRoutes.js:41-45 | updating a stored record keeps it well-typed and owned |
| UserRoutes.UserStore.Register | src/backend/routes/userRoutes.js:8-39 | an error thrown by the lookup or the create is 400 with its message and stores nothing; a taken email is 400 "User already exists"; otherwise the user is stored with the hashed password and is the one found for that email, and the answer is 201 with a 30-day token, or 400 with the message when signing throws after the user was stored |
| UserRoutes.UserStore.Login | src/backend/routes/userRoutes.js:42-72 | an error thrown by the lookup, the comparison or the signing is 400 with its message; otherwise an unknown email or a wrong password is 401 "Invalid email or password", and a found email with a matching password is 200 with that user's session |
| UserRoutes.UserStore.GetProfile | src/backend/routes/userRoutes.js:75-82 | no identity is 404; a known id yields the profile without password; an unknown id yields null |
| BackendApp.MountFor | src/backend/server.js:19-26 | the chosen router's mount prefix covers the path; if none is chosen, no prefix covers it |
| BackendApp.Dispatch | src/backend/server.js:13-30 | `cors` ends every OPTIONS request first; a body that does not parse goes to the error handler with status 200; otherwise the users router runs ungated, the resource routers run only with an admitted user, and that user is `req.user` |
| BackendApp.BrokenBodyIs500 | src/backend/server.js:16-35 | a body that does not parse is answered 500 with the parser's message, whatever the path and the token |
| BackendApp.MountPrefixes | src/backend/server.js:19-26 | the five mount prefixes are lower-case and differ at their sixth character |
| BackendApp.MountsDisjoint | src/backend/server.js:19-26 | no path falls under two mounts |
| BackendApp.MountForUnder | src/backend/server.js:19-26 | a path under a mount is served by that mount |
| BackendApp.UnderPrefix | src/backend/server.js:19-26 | a prefix followed by nothing or by `/...` is under that prefix |
| BackendApp.UsersUngated | src/backend/server.js:19 | `/api/users/...` reaches the users router with or without a token |
| BackendApp.ProfileSeesNoUser | src/backend/server.js:19 | `GET /api/users/profile` reaches the users router with no identity whatever the token, so `UserStore.GetProfile` always answers 404 "User not found" |
| BackendApp.ResourcesGated | src/backend/server.js:22-26 | `/api/activities`, `/nutrition`, `/goals` and `/progress` are refused without an admitted user and served with one |
| BackendApp.ErrorStatus | src/backend/server.js:30 | the error status is never 200; a status already set is kept |
| BackendApp.HandleError | src/backend/server.js:29-35 | the reply carries the error message; the stack is hidden exactly in production |
| BackendApp.HandleErrorTwice | src/backend/server.js:29-35 | handling the same error again gives the same reply |
| Monolith.ModelFacts | src/server.js:46-94 | goals keep timestamps; activities and nutrition have a defaulted `date` and no timestamps |
| Monolith.NewActivity | src/server.js:205-208 | `{ ...body, userId }`: the caller owns the activity whatever the body says; the other body fields are kept |
| Monolith.NewGoal | src/server.js:232-235 | the caller owns the goal; the other body fields are kept |
| Monolith.TokenOf | src/server.js:103-104 | a token is the non-empty second space-separated word of the header |
| Monolith.Authenticate | src/server.js:102-117 | no token is 401 "Access token required"; a token that fails verification is 403 "Invalid token"; otherwise the verified claims are admitted |
| Monolith.BearerToken | src/server.js:104 | `Bearer <token>` yields the token |
| Monolith.OneWordHeader | src/server.js:104 | a header without a space yields no token |
| Monolith.EmptySecondWord | src/server.js:103-106 | a header whose second word is empty ('Bearer ', 'Bearer  x') yields no token, so the gate answers 401 |
| Monolith.InsertByDate | src/server.js:219-221 | insertion adds exactly one element |
| Monolith.InsertKeepsOrder | src/server.js:219-221 | insertion into a newest-first list keeps it newest-first |
| Monolith.NewestFirst | src/server.js:219-221 | sorting by date descending is a permutation |
| Monolith.NewestFirstOrdered | src/server.js:219-221 | the sorted list is newest-first |
| Monolith.Limit | src/server.js:221 | `.limit(n)` keeps a prefix of at most n elements, and all of them when fewer exist |
| Monolith.PageOwned | src/server.js:219-221 | every listed record is the caller's stored record |
| Monolith.PageOnce | src/server.js:219-221 | no record is listed twice |
| Monolith.PageNewest | src/server.js:219-221 | a caller's record left off the page is no newer than the last listed, and the page is full |
| Monolith.NewestPageHolds | src/server.js:217-227 | the page is the caller's newest records, at most the limit, newest first, without repeats |
| Monolith.Dated | src/server.js:54 | a well-typed document with a `date` field holds a date |
| Monolith.FirstOfDay | src/server.js:277-280 | finds the caller's earliest entry dated within the day, or there is none |
| Monolith.NewDay | src/server.js:283-286 | a new day entry is the caller's and is dated at that midnight |
| Monolith.StockedAdd | src/server.js:272-297 | adding a valid, dated entry keeps the collection valid and dated |
| Monolith.StockedPut | src/server.js:290-291 | replacing an entry with a valid, dated one keeps the collection valid and dated |
| Monolith.AllCastPut | src/server.js:253-269 | storing a well-typed goal keeps the collection well-typed |
| Monolith.FitServer.Register | src/server.js:122-163 | a taken email is 400 "User already exists"; an invalid user is 500; a thrown lookup, hash or save is 500 "Server error" with its message and stores nothing; otherwise the user is stored and found by email afterwards, and the answer is 201, or 500 with the message when signing throws after the save |
| Monolith.FitServer.AddMember | src/server.js:135-142 | a valid user whose email no one has is stored under the next id and is the one found for that email; emails stay unique and the users stay valid |
| Monolith.FitServer.Login | src/server.js:165-200 | a thrown lookup, comparison or signing is 500 "Server error" with its message; otherwise an unknown email or a wrong password is 400 "Invalid credentials", and a found email with a matching password is 200 "Login successful" with a one-day token |
| Monolith.FitServer.CreateActivity | src/server.js:203-215 | a valid activity is stored under a fresh id and answered 201; an invalid one changes nothing and answers 500 |
| Monolith.FitServer.SaveActivity | src/server.js:209 | `activity.save()` stores a valid document under a fresh id and rejects an invalid one |
| Monolith.FitServer.ListActivities | src/server.js:217-227 | answers 200 with the caller's 50 newest activities, newest first |
| Monolith.FitServer.CreateGoal | src/server.js:230-242 | a valid goal is stored under a fresh id and answered 201; an invalid one changes nothing and answers 500 |
| Monolith.FitServer.SaveGoal | src/server.js:236 | `goal.save()` stores a valid document under a fresh id and rejects an invalid one |
| Monolith.FitServer.ListGoals | src/server.js:244-251 | answers 200 with all and only the caller's goals |
| Monolith.FitServer.UpdateGoal | src/server.js:253-269 | a badly typed body is 500; a goal that is missing or not the caller's is 404 "Goal not found"; otherwise the goal is updated and returned |
| Monolith.FitServer.UpsertNutrition | src/server.js:272-297 | the day's first entry is overwritten, or a new one is created; either is stored and answered 200, and an invalid result changes nothing and answers 500 |
| Monolith.FitServer.SaveEntry | src/server.js:291 | `nutrition.save()` stores a valid entry, new or existing, and rejects an invalid one |
| Monolith.FitServer.ListNutrition | src/server.js:299-309 | answers 200 with the caller's 30 newest entries, newest first |
| Monolith.PlanUpsert | src/server.js:277-291 | updates the day's first entry exactly when the day has one; otherwise creates a new entry under a fresh id |
| Monolith.PlanDated | src/server.js:283-291 | the planned entry always has a `date` |
| Monolith.OneEntryPerDay | src/server.js:272-297 | posting a day's nutrition twice leaves one entry for that day, unless the body moves it to another day or user |
| Monolith.UpsertCopiesOwner | src/server.js:290 | a `userId` in the body overrides the owner of the stored entry |
| Monolith.GenerateAIResponse | src/server.js:325-337 | diet advice exactly when the message mentions diet or food, case ignored; then exercise, then weight; otherwise the greeting |
| Monolith.AdviceIgnoresCase | src/server.js:326 | the advice does not depend on letter case |
| Monolith.ChatReply | src/server.js:312-323 | a string `message` is answered 200 with one of the four advice texts; anything else is 500 "Server error" |
| Monolith.GoalParam | src/server.js:253 | `/api/goals/:id` captures a non-empty segment without `/`; a trailing slash is allowed |
| Monolith.GoalParamRoundTrip | src/server.js:253 | a goal id put into the path is captured back |
| Monolith.RouteOf | src/server.js:122-356 | static files serve GET and HEAD only; the health check answers only when no file of that name exists; PUT goals carries the captured id; unknown verbs reach no route |
| Monolith.HealthShadowed | src/server.js:340-345 | a static file named `api/health` shadows the health check |
| Monolith.Route | src/server.js:15-356 | `cors` ends every OPTIONS request with 204 and no body; otherwise a body that fails to parse is 500 "Something went wrong!"; no route is 404 "Route not found"; a gated route runs only with admitted claims, and a refusal is answered as the gate says |
| Monolith.NoTokenNoData | src/server.js:102-117 | without a token, only register, login, static files and health are served |
| Text.Trim | src/js/ai-chat.js:27 | the result is a slice of the input with only white space before and after it, and starts and ends with a non-space |
| Text.TrimEmptyIff | src/js/auth.js:224-228 | a trimmed field is empty exactly when it is all white space |
| Text.TrimKeepsTrimmed | src/js/auth.js:224 | trimming a trimmed string changes nothing |
| Text.Lower | src/js/ai-chat.js:94 | `toLowerCase` maps each character and keeps the length |
| Text.LowerIdempotent | src/js/ai-chat.js:94 | lower-casing twice is lower-casing once |
| Dashboard.TodaySteps | src/js/dashboard.js:228-233 | with non-negative step counts, the total is at least the live step count |
| Dashboard.TodayCalories | src/js/dashboard.js:235-240 | with non-negative calories, the total is non-negative |
| Dashboard.TodayWorkoutTime | src/js/dashboard.js:242-247 | with non-negative durations, the total is non-negative |
| Dashboard.TotalsSplit | src/js/dashboard.js:228-247 | each of today's totals over a joined list is the sum of the totals over its parts |
| Dashboard.WalksNoWorkout | src/js/dashboard.js:245 | walks never count toward workout time |
| Dashboard.OtherDaysIgnored | src/js/dashboard.js:229-245 | activities from other days add nothing to today's totals |
| Dashboard.StepsBase | src/js/dashboard.js:232 | the live step count is simply added to the recorded steps |
| Dashboard.StopKeepsTotals | src/js/dashboard.js:320-344 | saving the tracked walk moves its steps from the live count into the list, adds its calories and leaves workout time unchanged |
| Dashboard.Reverse | src/js/dashboard.js:256 | the result is the input backwards |
| Dashboard.Recent | src/js/dashboard.js:256 | shows the last three activities (or all, if fewer), newest first |
| Dashboard.ActivityIcon | src/js/dashboard.js:272-283 | known types get their icon; the heart is used exactly for types outside the six named ones |
| Dashboard.SpaceBeforeCaps | src/js/dashboard.js:286 | every capital of the result has a space just before it, so the result never starts with one |
| Dashboard.SpacesRoundTrip | src/js/dashboard.js:286 | dropping the inserted spaces gives back the original |
| Dashboard.FormatActivityName | src/js/dashboard.js:285-287 | empty exactly for the empty type; otherwise the first letter is upper-cased and every later capital has a space just before it |
| Dashboard.FormatActivityTime | src/js/dashboard.js:289-299 | "Just now" exactly when less than an hour has passed |
| Dashboard.AgoReadsBack | src/js/dashboard.js:295-298 | "n unit[s] ago" reads back as n, the unit (plural above one) and "ago" |
| Dashboard.TimeReadsBack | src/js/dashboard.js:289-299 | after an hour, the text gives the whole hours, or the whole days from 24 hours on |
| Dashboard.InCategory | src/js/dashboard.js:506 | keeps exactly the workouts of that category |
| Dashboard.InCategoryAppend | src/js/dashboard.js:506 | filtering keeps the workouts' order: filtering a concatenation is concatenating the filtered parts |
| Dashboard.WorkoutsFor | src/js/dashboard.js:479-509 | "recommended" shows all workouts; any other tab shows exactly that category's |
| Dashboard.CardioTab | src/js/dashboard.js:479-509 | the cardio tab shows Morning Cardio Blast and HIIT Training |
| Dashboard.FirstToday | src/js/dashboard.js:120-122 | finds the first entry dated today, or there is none |
| Dashboard.DashboardState.StartStepTracking | src/js/dashboard.js:302-304 | tracking starts from zero steps |
| Dashboard.DashboardState.StopStepTracking | src/js/dashboard.js:320-344 | tracking stops; a positive count is saved as a walk and reset; otherwise nothing changes |
| Dashboard.DashboardState.LoadGoals | src/js/dashboard.js:596-626 | with no goals the two default goals appear; existing goals stay |
| Dashboard.DashboardState.LoadNutrition | src/js/dashboard.js:114-138 | today's totals come from the first entry dated today; with none, or on failure, they stay |
| AuthPage.Flip | src/js/auth.js:8-16 | toggling always changes the mode |
| AuthPage.FlipTwice | src/js/auth.js:4-19 | toggling twice returns to the same mode |
| AuthPage.AuthForms.Toggle | src/js/auth.js:4-19 | the mode becomes the other one |
| AuthPage.FirstAt | src/js/auth.js:42 | finds the first `@`, or the end of the text |
| AuthPage.DomainFromIff | src/js/auth.js:42 | the domain check accepts exactly a domain free of spaces and `@` with an inner dot |
| AuthPage.EmailCheckIff | src/js/auth.js:41-44 | the email check holds exactly for local@domain.tld: no spaces, one `@`, and a dot with text on both sides after it |
| AuthPage.CheckLogin | src/js/auth.js:224-238 | an empty field gives "fill in all fields"; otherwise a malformed email gives "valid email"; otherwise the login proceeds |
| AuthPage.CheckRegister | src/js/auth.js:276-304 | the message is that of the first failing check, each stated as an if-and-only-if: an empty field, then a malformed email, then differing passwords, then a password under 6 characters; it proceeds exactly when all four pass, and no other message is possible |
| AuthPage.BlankEmailIsEmpty | src/js/auth.js:224-230 | an all-space email counts as an empty field |
| AuthPage.MismatchBeforeLength | src/js/auth.js:294-304 | mismatched passwords are reported before a short one |
| AuthPage.AuthenticateUser | src/js/auth.js:104-154 | a server answer is passed on; when the server is unreachable, only the demo account signs in, and any other credentials get "Invalid email or password. Try demo@fittracker.com / demo123" |
| AuthPage.RegisterUser | src/js/auth.js:156-203 | a server answer is passed on; when the server is unreachable, a local user with a local token is always created |
| AuthPage.SubmitLogin | src/js/auth.js:214-263 | a failed check stops before any request with its message; otherwise the server's acceptance signs in with its user and token, its refusal shows its message or 'Login failed', and offline only the demo account signs in, any other credentials being refused with the demo hint |
| AuthPage.SubmitRegister | src/js/auth.js:266-329 | a failed check stops before any request with its message; otherwise the passwords match and are long enough, the server's acceptance signs in with its user and token, its refusal shows its message or 'Registration failed', and offline the trimmed name and email are stored locally |
| AuthPage.StoppedSendsNothing | src/js/auth.js:214-238 | a stopped submission does not depend on the server |
| AuthPage.DemoEmailShape | src/js/auth.js:134 | the demo email passes the email check |
| AuthPage.LoginOffline | src/js/auth.js:131-153 | offline, a checked login succeeds exactly for the demo credentials, with the demo token |
| AuthPage.DemoOffline | src/js/auth.js:131-153 | offline, the demo account signs in |
| AiChat.Replies | src/js/ai-chat.js:2-23 | each topic has three replies |
| AiChat.Classify | src/js/ai-chat.js:93-105 | diet words win, then exercise words, then weight words; otherwise general |
| AiChat.Pick | src/js/ai-chat.js:97 | `Math.floor(Math.random() * 3)` is the index whose third of [0, 1) holds the random number |
| AiChat.GenerateAIResponse | src/js/ai-chat.js:93-105 | the reply is one of the three replies of the message's topic |
| AiChat.EveryReplyReachable | src/js/ai-chat.js:93-105 | every reply of the topic is produced for some random number |
| AiChat.ReplyTellsTopic | src/js/ai-chat.js:2-23 | no two replies coincide, so a reply determines its topic |
| AiChat.ClassifyIgnoresCase | src/js/ai-chat.js:94 | the topic does not depend on letter case |
| AiChat.FallbackRefinesServer | src/js/ai-chat.js:93-105 | a diet answer from the server means the local topic is diet; a general local topic means the server greets |
| AiChat.QuickQuestion | src/js/ai-chat.js:107-117 | each quick question is non-empty |
| AiChat.DietQuestionNoDietWord | src/js/ai-chat.js:109 | the diet quick question mentions no diet word |
| AiChat.DietQuestionNoExerciseWord | src/js/ai-chat.js:109 | the diet quick question mentions no exercise word |
| AiChat.DietQuestionSaysWeight | src/js/ai-chat.js:109 | the diet quick question mentions weight |
| AiChat.DietQuestionGetsWeightReply | src/js/ai-chat.js:107-117 | the diet quick question is answered locally with a weight reply |
| AiChat.BotReply | src/js/ai-chat.js:53-64 | a server answer is shown as sent; otherwise a local reply of the message's topic |
| AiChat.ChatPanel.SendMessage | src/js/ai-chat.js:25-70 | a blank input does nothing; otherwise the trimmed message and its reply are appended and the input is cleared |
| AiChat.ChatPanel.AskQuickQuestion | src/js/ai-chat.js:107-117 | the question is put in the input and sent |
| AiChat.ChatPanel.KeyPress | src/js/ai-chat.js:119-129 | only Enter sends: a non-blank input adds the trimmed message and the bot's reply to it and clears the input; a blank one changes nothing |
| ActivitiesView.Edit | src/frontend/src/components/Activities.js:77-106 | an input's change sets that field and keeps the other three |
| ActivitiesView.WithoutId | src/frontend/src/components/Activities.js:61 | keeps exactly the records whose `_id` differs |
| ActivitiesView.WithoutIdAppend | src/frontend/src/components/Activities.js:61 | the filter works piecewise, so order is kept |
| ActivitiesView.WithoutIdTwice | src/frontend/src/components/Activities.js:54-65 | deleting twice is deleting once |
| ActivitiesView.AddThenDelete | src/frontend/src/components/Activities.js:34-65 | adding a record with a fresh id and deleting it restores the list |
| ActivitiesView.ActivitiesPanel.Fetch | src/frontend/src/components/Activities.js:16-31 | the list becomes the fetched one; a failure leaves it |
| ActivitiesView.ActivitiesPanel.Change | src/frontend/src/components/Activities.js:77-106 | the form takes the edited field |
| ActivitiesView.ActivitiesPanel.Submit | src/frontend/src/components/Activities.js:34-51 | the created record is appended and the form is emptied; a failure changes nothing |
| ActivitiesView.ActivitiesPanel.Delete | src/frontend/src/components/Activities.js:54-65 | a confirmed delete drops that id's records; a failure changes nothing |

## Left out

- The middleware `protect` (`src/backend/middleware/authMiddleware.js`), `src/backend/models/userModel.js` and `src/backend/config/db.js` are not part of this model. The admitted user, user-creation errors and the database connection are parameters.
- bcrypt hashing and comparison, JWT signing and verification, the clock, `Math.random` and the file system are parameters of the operations that use them.
- Mongoose update validators are not run on update, so `ResourceRouter.Update` and `FitServer.UpdateGoal` check only that field types cast.
- Mongoose's casting of strings to numbers and dates is not modelled: a value casts only when it already has the field's type.
- `NewActivity`, `NewGoal`, `ResourceRoutes.Spread`, `Schemas.Touch` and `PlanUpsert` keep every field of the request body. Mongoose's strict mode drops fields the schema does not declare, both from what is saved and from what is sent back. So the model's answers from `ResourceRouter.Create`, `ResourceRouter.Update`, `FitServer.CreateActivity`, `FitServer.CreateGoal`, `FitServer.UpdateGoal` and `FitServer.UpsertNutrition` can echo, and store, fields the program drops.
- Database failures other than validation and cast errors are not modelled, such as a lost connection. The list routes then answer 500: `ResourceRouter.List` (`src/backend/routes/activityRoutes.js:10-12`), and `FitServer.ListActivities`, `ListGoals` and `ListNutrition` (`src/server.js:224-226, 248-249, 306-307`). A save or update that throws such an error answers 500 or 400 in the other handlers. Thrown calls are modelled only in the two user stores' register and login, through their `fault` parameter.
- Process start-up is not modelled: `listen`, `dotenv`, helmet and `express.static` headers.
- The CORS headers are not modelled. Both servers' `cors` is modelled only as the 204 that ends every OPTIONS request, in `Monolith.Route` and `BackendApp.Dispatch`.
- The monolith's rate limiter is not modelled. It answers 429 to each request past 100 from one IP address in 15 minutes, before the routes. Counting requests per address over time would need the clock and the client address of every earlier request.
- Express path decoding and query strings are not modelled. Routes are matched case-insensitively on the raw path, as Express does by default.
- `toLowerCase` and `toUpperCase` are modelled for ASCII letters only: JavaScript maps 'é' to 'É' and 'ß' to "SS", which `Text.UpperChar` leaves unchanged, and `trim` uses the ECMAScript white-space set. String length is counted in characters, not UTF-16 units.
- Floating point is not modelled. Client totals are integers, and a tracked walk's calories are `count * 4 / 100` for `Math.floor(count * 0.04)`; the default goals use reals.
- `Dashboard.DashboardState.StartStepTracking`: the one-second timer that adds 1 to 3 random steps is not modelled; only starting from zero is.
- `Dashboard.TodaySteps`: activity dates are compared through a `dayOf` parameter in place of `toDateString`.
- `Dashboard.ActivityIcon`: inherited object keys such as `constructor` are not modelled, so such a type gets the heart.
- The health reply's timestamp is a number of milliseconds rather than an ISO string.
- DOM updates, `innerHTML`, button states, `localStorage`, redirects, timers and `charts.js` are not modelled.
- The HTML built by `addMessage` is not modelled; the chat is modelled as a list of lines.
- React renders, stale closures in `Activities` and interleaving of concurrent requests are not modelled. Each request's outcome is applied at once.
- `loadUserData`, `loadActivities`, `loadGoalsFromAPI`, the meal tabs, chart drawing and the other dashboard view functions only render or fetch. They are left out apart from the totals, goals and nutrition loading modelled above.
- A malformed `:id` is not modelled: ids are natural numbers, so the cast error is left out. On such an id `ResourceRouter.Update` answers 400 and `ResourceRouter.Delete` 500 in `src/backend/routes/activityRoutes.js:47-48, 66-67`, and `FitServer.UpdateGoal` 500 'Server error' in `src/server.js:266-268`. The string id of the endpoint `PutGoal` is not linked to the number `UpdateGoal` takes.
