# nowNoise onboarding and account logic in Dafny

nowNoise is a music-discovery app. It has a React Native front end and a small Flask backend.
This project models the logic under its onboarding and dashboard screens, and the backend's
account rules:

- **Tutorial swipe deck** (`Tutorial`):
  - the release decision on the horizontal drag against 30% of the width;
  - the commit animation's target and the single callback it fires;
  - the rotation clamp;
  - the song queue, with removal by id and refill from the fixed batch of three songs;
  - the five slides, and the demo driver that swipes the top card by itself.
- **Signup form** (`SignupForm`):
  - the three field checks;
  - per-field editing, with error clearing;
  - the normalized hand-off (username trimmed, email trimmed and lower-cased).
- **Genre step** (`GenreSelection`): toggling ids picked from a grid of twelve, and the 1..5 limit.
- **Profile-picture step** (`ProfilePicture`):
  - a default avatar or a custom image, never both;
  - completing with the current picture, or skipping.
- **Signup wizard** (`MultiStepSignup`):
  - a step counter 1..3 that spreads each step's fields into one record;
  - the final submission, with its reset and its failure path.
- **Router** (`AuthFlow`): the welcome / login / signup / tutorial / landing screens and the signed-in user.
- **Backend accounts** (`Accounts`):
  - `validate_email` and `validate_password`;
  - signup normalization and its ordered checks over a user table whose usernames and emails stay unique;
  - login by email or username, where an unknown user and a wrong password get the same answer.
- **Dashboard** (`Dashboard`):
  - `formatDuration`;
  - the Spotify profile and list loaders, with their guard and loading flags;
  - the state reset and the user record after a successful Spotify disconnect.

Three shared modules support these:

- `Text` writes out JavaScript's `trim`, Python's `strip` and ASCII lower-casing.
- `Seqs` holds subsequence and duplicate-freedom facts.
- `Options` provides `Option` and `Result`.

How state is modelled:

- State that a component keeps with `useState` and overwrites in its handlers is a `class`. Each
  handler is a `method` whose `ensures` gives the whole new state.
- Each decision a handler makes is a pure function with its own contract.
- The properties that relate several calls are lemmas: round trips, idempotence, order of checks,
  and invariants.

Several things outside the program become inputs to the handlers rather than being modelled:

- network answers: `Fetch`, `SignupResponse`, `Request` and `CompletionOutcome`;
- image-picker results: `PickerResult`;
- the camera permission and the confirmation dialog, as booleans;
- the salt of a password hash.

## Model

| member | source | states |
|---|---|---|
| Tutorial.ReleaseDecision | nowNoise/src/screens/TutorialScreen.js:120-139 | commits right iff `dx` exceeds 0.3·width, commits left iff it is below minus that (and not right), otherwise springs back; on a positive width it springs back iff the absolute value of `dx` is at most the threshold and a commit's direction is the sign of `dx` |
| Tutorial.SwipeThreshold | nowNoise/src/screens/TutorialScreen.js:121 | the threshold is three tenths of the width; on a positive width it is positive and less than the width |
| Tutorial.DragRotation | nowNoise/src/screens/TutorialScreen.js:117 | the rotation turns the way the card is dragged (positive, negative or zero with `dx`) and stays within the drawn 30 degrees exactly for drags of at most 300 |
| Tutorial.ThresholdBoundaryCancels | nowNoise/src/screens/TutorialScreen.js:121-127 | a drag of exactly plus or minus the threshold springs back (both comparisons are strict) |
| Tutorial.ReleaseExamples | nowNoise/src/screens/TutorialScreen.js:121-127 | on a 400-wide screen, 50 springs back, 150 commits right and -150 commits left |
| Tutorial.RenderedRotation | nowNoise/src/screens/TutorialScreen.js:142-146 | the drawn rotation lies in [-30, 30], equals the rotation value inside that range and the nearer bound outside it |
| Tutorial.RenderedRotationMonotone | nowNoise/src/screens/TutorialScreen.js:142-146 | the clamp is monotone |
| Tutorial.ShortDragRotationUnclamped | nowNoise/src/screens/TutorialScreen.js:116-118 | a drag of at most 300 either way is drawn tilted by exactly `dx / 10` |
| Tutorial.ExitOffset | nowNoise/src/screens/TutorialScreen.js:90-91 | a committed card leaves past the right edge when going right and past the left edge when going left |
| Tutorial.ExitRotation | nowNoise/src/screens/TutorialScreen.js:99-103 | the exit rotation is ±30, positive exactly for a right commit |
| Tutorial.ExitsMirror | nowNoise/src/screens/TutorialScreen.js:90-103 | the left exit is the mirror image of the right one, in offset and rotation |
| Tutorial.CommitCallback | nowNoise/src/screens/TutorialScreen.js:104-110 | a settled commit fires the right-swipe callback iff it went right, always with the card's own song |
| Tutorial.SongCard.constructor | nowNoise/src/screens/TutorialScreen.js:47-49 | a card starts at rest: offset (0, 0), rotation 0 |
| Tutorial.SongCard.DisplayedRotation | nowNoise/src/screens/TutorialScreen.js:142-146 | a card is never drawn tilted beyond ±30 degrees |
| Tutorial.SongCard.Move | nowNoise/src/screens/TutorialScreen.js:114-119 | a demo card ignores drags; any other follows the finger and tilts by `dx * 0.1` |
| Tutorial.SongCard.Release | nowNoise/src/screens/TutorialScreen.js:90-139 | a commit ends at the exit point with exactly one callback for the card's song; a spring-back returns to rest and fires none; a demo card does nothing |
| Tutorial.RemoveId | nowNoise/src/screens/TutorialScreen.js:284-285 | the filtered queue holds no song with the id, keeps every other song, and keeps their order (subsequence) |
| Tutorial.RemoveIdDropsOne | nowNoise/src/screens/TutorialScreen.js:284-285 | with unique ids, removing an id that occurs shortens the queue by exactly one |
| Tutorial.RemoveAbsentId | nowNoise/src/screens/TutorialScreen.js:293-294 | removing an id no song carries leaves the queue unchanged |
| Tutorial.SwipeTopAdvances | nowNoise/src/screens/TutorialScreen.js:284-285 | with unique ids, swiping the top card leaves exactly the rest of the queue |
| Tutorial.BatchSubsequenceUniqueIds | nowNoise/src/screens/TutorialScreen.js:14-45 | every queue obtained by deleting songs from the batch has unique ids |
| Tutorial.DemoQueue | nowNoise/src/screens/TutorialScreen.js:302-333 | a demo swipe on a queue drawn from the batch leaves a non-empty queue drawn from the batch; on a queue of two or more it just drops the top card |
| Tutorial.DemoCycle | nowNoise/src/screens/TutorialScreen.js:302-333 | three demo swipes from the full batch remove songs 1 and 2 and then refill, returning to the full batch |
| Tutorial.RenderCards | nowNoise/src/screens/TutorialScreen.js:362-380 | a card slide draws the first two songs (fewer if fewer), index 0 is the top card and drawn above the other, and cards take drags unless the slide is the demo slide; other slides draw nothing |
| Tutorial.TutorialScreen.constructor | nowNoise/src/screens/TutorialScreen.js:207-209 | the tutorial starts on slide 0 with the full batch |
| Tutorial.TutorialScreen.HandleNext | nowNoise/src/screens/TutorialScreen.js:260-269 | below the last slide it advances by one, resetting the queue when the new slide shows cards; on the last slide it completes and keeps the slide; the slide stays in 0..4 |
| Tutorial.TutorialScreen.HandleSkip | nowNoise/src/screens/TutorialScreen.js:271-273 | skipping always completes the tutorial |
| Tutorial.TutorialScreen.HandlePrevious | nowNoise/src/screens/TutorialScreen.js:275-282 | steps back only above slide 0, resetting the queue when the new slide shows cards; the slide stays in 0..4 |
| Tutorial.TutorialScreen.HandleSwipe | nowNoise/src/screens/TutorialScreen.js:284-300 | the swiped id leaves the queue, and the queue is refilled with the batch when the handler's captured `songs` had at most one song; the queue stays a subsequence of the batch |
| Tutorial.TutorialScreen.DemoTick | nowNoise/src/screens/TutorialScreen.js:302-333 | on a slide with a demo direction and a non-empty queue it fires that direction's callback for `songs[0]` and the queue becomes `DemoQueue` of the old one; otherwise nothing changes |
| GenreSelection.RemoveAll | nowNoise/src/screens/GenreSelectionScreen.js:137 | filtering removes every occurrence of the id, keeps every other id, and keeps their order |
| GenreSelection.Toggle | nowNoise/src/screens/GenreSelectionScreen.js:134-141 | after a toggle the id is selected iff it was not, no other id's membership changes, an absent id is appended at the end, and a present id's removal keeps the order |
| GenreSelection.ToggleKeepsDistinct | nowNoise/src/screens/GenreSelectionScreen.js:134-141 | toggling keeps a duplicate-free selection duplicate-free |
| GenreSelection.ToggleStaysInGrid | nowNoise/src/screens/GenreSelectionScreen.js:30-43 | toggling a grid id keeps a selection of grid ids within the twelve grid ids |
| GenreSelection.RemoveAllAppended | nowNoise/src/screens/GenreSelectionScreen.js:136-139 | removing an id that was just appended to a list without it gives back the list |
| GenreSelection.ToggleTwiceRestoresAbsent | nowNoise/src/screens/GenreSelectionScreen.js:134-141 | toggling an absent id twice restores the exact selection |
| GenreSelection.ToggleTwiceRestoresMembership | nowNoise/src/screens/GenreSelectionScreen.js:134-141 | toggling any id twice restores which ids are selected |
| GenreSelection.ToggleTwiceReordersPresent | nowNoise/src/screens/GenreSelectionScreen.js:134-141 | toggling a present id twice can change the order: `["rock","pop"]` becomes `["pop","rock"]` |
| GenreSelection.ContinueCheck | nowNoise/src/screens/GenreSelectionScreen.js:147-159 | proceeds iff 1 to 5 genres are selected, passing them on unchanged; an empty selection and one of more than 5 get their own messages |
| GenreSelection.GenreSelectionScreen.constructor | nowNoise/src/screens/GenreSelectionScreen.js:45-47 | the selection starts as the initial genres with no error |
| GenreSelection.GenreSelectionScreen.ToggleGenre | nowNoise/src/screens/GenreSelectionScreen.js:134-145 | the selection becomes its toggle, any pending error is cleared, and a duplicate-free grid selection stays one |
| GenreSelection.GenreSelectionScreen.HandleContinue | nowNoise/src/screens/GenreSelectionScreen.js:147-159 | an accepted selection is handed on unchanged; a refused one sets its message and hands on nothing; the selection never changes |
| SignupForm.EmailShapeMatchesRegex | nowNoise/src/screens/SignupScreen.js:261-262 | the scanning check accepts exactly the strings matched by `/^[^\s@]+@[^\s@]+\.[^\s@]+$/` |
| SignupForm.ShapeImpliesRegex | nowNoise/src/screens/SignupScreen.js:261-262 | a string that passes the scan matches the regular expression |
| SignupForm.RegexImpliesShape | nowNoise/src/screens/SignupScreen.js:261-262 | a string the regular expression matches passes the scan |
| SignupForm.FormErrors | nowNoise/src/screens/SignupScreen.js:254-269 | every stored error carries its field's own message |
| SignupForm.FormErrorsExact | nowNoise/src/screens/SignupScreen.js:254-272 | the username error is present iff the trimmed username is shorter than 3; the email error iff the trimmed email does not match the regular expression; the password error iff the untrimmed password is shorter than 6; no error iff the form is valid |
| SignupForm.ErrorsOf | nowNoise/src/screens/SignupScreen.js:255-268 | the error object has a field iff that field's check failed, with the field's message, and is empty iff none failed |
| SignupForm.LowerKeepsSeparators | nowNoise/src/screens/SignupScreen.js:305 | lower-casing keeps white space, '@' and '.' where they are and introduces none |
| SignupForm.LowerKeepsEmailShape | nowNoise/src/screens/SignupScreen.js:261-305 | a lower-cased matching email still matches |
| SignupForm.NormalizedFormStaysValid | nowNoise/src/screens/SignupScreen.js:303-307 | the normalized credentials of a valid form would pass the form's own checks again |
| SignupForm.NormalizeIdempotent | nowNoise/src/screens/SignupScreen.js:303-307 | normalizing normalized credentials changes nothing |
| SignupForm.Normalize | nowNoise/src/screens/SignupScreen.js:303-307 | the handed-on username is the typed one with JavaScript white space cut from both ends, the email is the typed one so trimmed and then lower-cased, and the password is the typed one; neither trimmed field starts or ends with white space and the email holds no ASCII upper-case letter |
| SignupForm.LowerOfTrimmedIsTrimmed | nowNoise/src/screens/SignupScreen.js:305 | the lower-cased trimmed email has nothing left to trim |
| SignupForm.InitialValue | nowNoise/src/screens/SignupScreen.js:94-98 | each field starts with the initial data's value, or `''` when that is absent |
| SignupForm.SignupFormScreen.constructor | nowNoise/src/screens/SignupScreen.js:93-100 | the fields take their initial values, with no errors and not loading |
| SignupForm.SignupFormScreen.ValidateForm | nowNoise/src/screens/SignupScreen.js:254-272 | the errors are replaced wholesale by the three checks' errors, and the result is true iff there are none |
| SignupForm.SignupFormScreen.HandleInputChange | nowNoise/src/screens/SignupScreen.js:275-288 | only the edited field's value changes, and only that field's error, when non-empty, becomes `''` |
| SignupForm.SignupFormScreen.HandleContinue | nowNoise/src/screens/SignupScreen.js:291-313 | hands on the normalized credentials iff validation finds no error, then clears loading; on failure it hands on nothing and the errors are shown |
| MultiStepSignup.Overlay | nowNoise/src/screens/MultiStepSignup.js:18 | every key the step object carries takes its value, and every other key keeps the record's |
| MultiStepSignup.OverlayNothing | nowNoise/src/screens/MultiStepSignup.js:18 | spreading an empty step object changes nothing |
| MultiStepSignup.OverlayCompose | nowNoise/src/screens/MultiStepSignup.js:18-31 | two spreads in a row are one spread of their combination, the later step winning |
| MultiStepSignup.OverlayIdempotent | nowNoise/src/screens/MultiStepSignup.js:18 | spreading the same step object twice is spreading it once |
| MultiStepSignup.OverlayDisjointCommute | nowNoise/src/screens/MultiStepSignup.js:18 | steps with disjoint keys can be spread in either order |
| MultiStepSignup.FullFlowPayload | nowNoise/src/screens/MultiStepSignup.js:17-40 | after credentials, genres and the picture, the submitted record is exactly those fields, whatever was stored before |
| MultiStepSignup.ScreenOf | nowNoise/src/screens/MultiStepSignup.js:66-86 | a screen is shown iff the step is 1, 2 or 3; step 1 shows the credentials and step 3 the picture |
| MultiStepSignup.StepCompleteStaysInRange | nowNoise/src/screens/MultiStepSignup.js:66-86 | completing a step from a screen wired to `handleStepComplete` keeps the step in 1..3 |
| MultiStepSignup.Wizard.constructor | nowNoise/src/screens/MultiStepSignup.js:8-15 | the wizard starts at step 1 with the empty record |
| MultiStepSignup.Wizard.HandleStepComplete | nowNoise/src/screens/MultiStepSignup.js:17-20 | the step's fields are spread into the record and the step goes up by one |
| MultiStepSignup.Wizard.HandleBack | nowNoise/src/screens/MultiStepSignup.js:22-28 | at step 1 it switches to login and stays; elsewhere it steps back; the record is kept |
| MultiStepSignup.Wizard.HandleFinalSignup | nowNoise/src/screens/MultiStepSignup.js:30-62 | submits the record spread with the final fields; on creation it resets to step 1 and the empty record and reports the user; otherwise step and record are unchanged |
| ProfilePicture.PickedAsset | nowNoise/src/screens/ProfilePictureScreen.js:173-198 | a picker result supplies an image iff it was not cancelled and has an asset, and that image is the first asset |
| ProfilePicture.CurrentPicture | nowNoise/src/screens/ProfilePictureScreen.js:246-250 | the custom image's uri if there is one, otherwise the avatar's source, and none iff neither is chosen |
| ProfilePicture.DefaultAvatarShown | nowNoise/src/screens/ProfilePictureScreen.js:35-44 | choosing default avatar i with no custom image shows avatar i's address, which equals avatar j's address exactly when i is j |
| ProfilePicture.DefaultAvatarIdsDistinct | nowNoise/src/screens/ProfilePictureScreen.js:35-44 | the eight default avatars have distinct ids |
| ProfilePicture.CompleteEnabled | nowNoise/src/screens/ProfilePictureScreen.js:417 | the complete button is enabled iff not loading and a picture is chosen |
| ProfilePicture.PictureScreen.constructor | nowNoise/src/screens/ProfilePictureScreen.js:47-50 | nothing is chosen, not loading, no error |
| ProfilePicture.PictureScreen.SelectAvatar | nowNoise/src/screens/ProfilePictureScreen.js:158-162 | the avatar is chosen, the custom image dropped and the error cleared |
| ProfilePicture.PictureScreen.TakeResult | nowNoise/src/screens/ProfilePictureScreen.js:173-181 | a usable result replaces any choice with the image and clears the error; a cancelled or empty one changes nothing; an exception raises the alert; never both chosen |
| ProfilePicture.PictureScreen.PickImage | nowNoise/src/screens/ProfilePictureScreen.js:164-182 | picking from the gallery behaves as `TakeResult`, with the pick-failure alert |
| ProfilePicture.PictureScreen.TakePhoto | nowNoise/src/screens/ProfilePictureScreen.js:184-207 | without camera permission it alerts and changes nothing; otherwise it behaves as a pick, with the photo-failure alert |
| ProfilePicture.PictureScreen.HandleComplete | nowNoise/src/screens/ProfilePictureScreen.js:209-230 | with nothing chosen it sets the selection error and submits nothing; otherwise it submits the current picture, sets the retry error on failure, and ends not loading |
| ProfilePicture.PictureScreen.Skip | nowNoise/src/screens/ProfilePictureScreen.js:232-244 | submits no picture whatever is chosen, sets the retry error on failure, and ends not loading |
| AuthFlow.Render | nowNoise/src/screens/AuthScreen.js:51-101 | landing and tutorial are rendered iff that screen is current and a user is signed in, and they receive that user; login and signup are rendered on their screen; anything else falls back to the start screen |
| AuthFlow.SignedOutSeesNoUserScreens | nowNoise/src/screens/AuthScreen.js:51-67 | with nobody signed in, only the start, login and signup screens are ever rendered |
| AuthFlow.Router.constructor | nowNoise/src/screens/AuthScreen.js:12-13 | the router starts on the welcome screen with no user |
| AuthFlow.Router.HandleLoginSuccess | nowNoise/src/screens/AuthScreen.js:15-19 | the user is set and the landing page is shown |
| AuthFlow.Router.HandleSignupSuccess | nowNoise/src/screens/AuthScreen.js:21-25 | the user is set and the tutorial is shown |
| AuthFlow.Router.HandleTutorialComplete | nowNoise/src/screens/AuthScreen.js:27-30 | moves to the landing page and keeps the user |
| AuthFlow.Router.HandleLogout | nowNoise/src/screens/AuthScreen.js:32-36 | clears the user and returns to the welcome screen |
| AuthFlow.Router.SwitchToLogin | nowNoise/src/screens/AuthScreen.js:38-41 | shows the login screen and keeps the user |
| AuthFlow.Router.SwitchToSignup | nowNoise/src/screens/AuthScreen.js:43-46 | shows the signup screen and keeps the user |
| Accounts.EmailBodyIsPattern | backend/app.py:40-42 | a string that passes the scanning check matches the email pattern |
| Accounts.PatternIsEmailBody | backend/app.py:40-42 | a string matching the email pattern passes the scanning check |
| Accounts.ValidateEmail | backend/app.py:40-42 | `validate_email` holds iff `re.match` accepts the anchored pattern, a final line feed included |
| Accounts.ExampleAddress | backend/app.py:41 | "ab@cd.ef" matches the pattern |
| Accounts.TrailingLineFeedAccepted | backend/app.py:41-42 | "ab@cd.ef\n" is accepted although it is not itself a match of the pattern |
| Accounts.OneLetterTopLevelRejected | backend/app.py:41 | "ab@cd.e" is rejected: the last part needs two letters |
| Accounts.ValidatePassword | backend/app.py:44-46 | `validate_password` holds iff the password has at least 6 characters |
| Accounts.HashCheckLaw | backend/app.py:95-165 | a hash made from a password accepts that password and only it |
| Accounts.FindBy | backend/app.py:84-157 | the first row with the key in the column (so a row of the table), and none iff no row has it |
| Accounts.FindByUnique | backend/app.py:84-92 | in a table with unique values, the lookup of a row's value finds that row |
| Accounts.FindByAppended | backend/app.py:84-103 | a value no row had finds the appended row that has it |
| Accounts.SignupChecks | backend/app.py:69-92 | the checks pass iff the fields are valid and neither username nor email is in use, handing on the input unchanged |
| Accounts.SignupDecision | backend/app.py:55-92 | a request without data fails first with its message; otherwise the decision succeeds iff the normalized input is accepted, and hands that input on |
| Accounts.NormalizeSignup | backend/app.py:59-61 | the username is the sent one with Python white space stripped from both ends, the email is the sent one so stripped and then lower-cased, and the password is as sent; both have nothing left to strip and the email is already lower case |
| Accounts.NoData | backend/app.py:55-57 | `not data` is false exactly for a body that carries at least one field, and a body without data reads every field as empty |
| Accounts.FieldChecksInOrder | backend/app.py:69-79 | username length, email format and password length are checked in that order, each with its message |
| Accounts.UniquenessChecksInOrder | backend/app.py:84-92 | with valid fields, the username is checked for use before the email, each with its message |
| Accounts.NoDataFirst | backend/app.py:55-57 | the no-data answer is given iff the request carries no data |
| Accounts.NormalizeOfNormal | backend/app.py:59-61 | a request that already carries normalized fields normalizes to them |
| Accounts.SignupKeepsUnique | backend/app.py:84-103 | adding an accepted row under a fresh id keeps usernames, emails and ids unique and the ids below the next one |
| Accounts.UserStore.constructor | backend/app.py:30-35 | the table starts empty with ids from 1 |
| Accounts.UserStore.Signup | backend/app.py:48-115 | a refused request answers 400 with the first failing check's message and leaves the table unchanged; an accepted one answers 201 with the new user, appends exactly one row, and keeps the table unique |
| Accounts.UserStore.Insert | backend/app.py:95-103 | stores the accepted input under the next id as one appended row and keeps the table unique |
| Accounts.LoginPrecheck | backend/app.py:129-147 | no data, an empty login field and an empty password each answer 400 with their message, in that order |
| Accounts.LoginField | backend/app.py:134 | the login field is a contiguous piece of the sent `username` with only Python white space cut off at both ends, and has nothing left to strip |
| Accounts.LookUp | backend/app.py:150-158 | a field that passes `validate_email` is looked up by its lower-cased form in the email column, any other by itself in the username column |
| Accounts.Authenticate | backend/app.py:160-179 | 200 with the user iff a row was found and the password checks; otherwise the same 401 message |
| Accounts.Login | backend/app.py:122-179 | 400 exactly when the request has no data, an empty stripped login field or an empty password, with the message of the first of those; past them 200 exactly when the lookup finds a row whose hash accepts the password, the body then carrying a user of the table whose hash accepts it; every other answer is the single 401 invalid-credentials answer |
| Accounts.LoginRequestFields | backend/app.py:134-135 | a login request carries the field and the password it was made with |
| Accounts.StoredEmailIsNormal | backend/app.py:60 | a stored email has nothing left to strip and is already lower case |
| Accounts.ValidEmailLength | backend/app.py:41 | a valid address has at least six characters |
| Accounts.FindByAppendedAccepted | backend/app.py:84-103 | after signup, looking up the new username or email finds the new row |
| Accounts.ValidEmailLooksUp | backend/app.py:151-153 | the login lookup of a valid lower-case email is the email lookup |
| Accounts.NonEmailLooksUp | backend/app.py:155-157 | the login lookup of a field that is not a valid email is the username lookup |
| Accounts.LoginFinds | backend/app.py:122-179 | a well-formed login whose lookup finds a row with the right password answers 200 with that user |
| Accounts.LoginUnknown | backend/app.py:160-162 | a well-formed login whose lookup finds nobody answers 401 |
| Accounts.SignupThenLoginByEmail | backend/app.py:48-179 | after a signup, logging in with the stored email and the password succeeds as the new user |
| Accounts.SignupThenLoginByUsername | backend/app.py:48-179 | after a signup, logging in with the username succeeds as the new user when the username does not pass `validate_email` |
| Accounts.EmailShapedUsernameLoginFails | backend/app.py:150-162 | a new account whose username passes `validate_email`, when that username is no one's email, cannot log in by username: the answer is 401 |
| Accounts.EmailShapedUsernameCannotLogIn | backend/app.py:69-162 | signup accepts username "ab@cd.ef" with email "x@y.zz", and logging in as "ab@cd.ef" then answers 401 |
| Accounts.ExampleLoginRefused | backend/app.py:150-162 | on the one-row table of that signup, logging in as "ab@cd.ef" answers 401 |
| Accounts.FirstSignupLoginFails | backend/app.py:150-162 | on a one-row table, an email-shaped username that differs from the lower-cased email cannot log in by it |
| Accounts.ExampleSignupAccepted | backend/app.py:55-92 | the request with username "ab@cd.ef", email "x@y.zz" and password "secret" is accepted on an empty table |
| Accounts.LookUpIntended | backend/app.py:150-158 | corrected lookup: an exact username match wins; otherwise a valid email is looked up by email; otherwise nobody |
| Accounts.LoginIntended | backend/app.py:122-179 | corrected login: the same 400 answers and the same single 401 answer, and 200 exactly when the corrected lookup finds a row whose hash accepts the password, the body carrying a user of the table whose hash accepts it |
| Accounts.LoginIntendedFinds | backend/app.py:122-179 | with the corrected lookup, a found row with the right password logs in |
| Accounts.SignupThenLoginByUsernameIntended | backend/app.py:48-179 | with the corrected lookup every new account can log in by its username |
| Accounts.SignupThenLoginByEmailIntended | backend/app.py:48-179 | with the corrected lookup a new account still logs in by its email when that email is no one's username |
| Dashboard.DecimalString | nowNoise/src/screens/LandingPage.js:309 | the numeral is digits denoting the number, without leading zeros, one digit iff the number is below 10 |
| Dashboard.PadStart | nowNoise/src/screens/LandingPage.js:309 | the padded string has length max(length, width), ends with the original, and the rest is the fill character |
| Dashboard.LeadingZerosValue | nowNoise/src/screens/LandingPage.js:309 | padding a numeral with zeros keeps its value |
| Dashboard.Seconds | nowNoise/src/screens/LandingPage.js:308 | the seconds shown are in 0..59 |
| Dashboard.Minutes | nowNoise/src/screens/LandingPage.js:307 | the minutes shown are the number of full minutes: at most `ms`, and less than a minute short of it |
| Dashboard.DurationBounds | nowNoise/src/screens/LandingPage.js:307-308 | minutes·60000 + seconds·1000 ≤ ms < that + 1000, and minutes·60 + seconds is the whole seconds of `ms` |
| Dashboard.ParseJoined | nowNoise/src/screens/LandingPage.js:309 | two numerals joined by ':' read back as their two values |
| Dashboard.PaddedSeconds | nowNoise/src/screens/LandingPage.js:309 | seconds below 100 pad to exactly two digits that still denote them |
| Dashboard.ClockParses | nowNoise/src/screens/LandingPage.js:309 | a clock reading reads back as its minutes and seconds |
| Dashboard.ClockShape | nowNoise/src/screens/LandingPage.js:309 | a clock reading with seconds below 100 is the minutes' numeral, a colon and two characters |
| Dashboard.FormatDuration | nowNoise/src/screens/LandingPage.js:306-310 | `formatDuration(ms)` is the numeral of the whole minutes, a colon and exactly two characters, and reads back as the whole minutes and the leftover whole seconds of `ms`, so the two characters are the seconds padded with '0' |
| Dashboard.FormatDurationSameSecond | nowNoise/src/screens/LandingPage.js:306-310 | two durations are shown alike iff they agree to the whole second |
| Dashboard.WithList | nowNoise/src/screens/LandingPage.js:189-281 | the named list is replaced and nothing else changes |
| Dashboard.ErrorOr | nowNoise/src/screens/LandingPage.js:129-191 | a present non-empty error message is shown as it is; a missing or empty one gives the fallback, so the result is never empty when the fallback is not |
| Dashboard.ListResult | nowNoise/src/screens/LandingPage.js:187-195 | a list loads iff the answer is ok and the list object exists, a missing `items` loading as empty; a non-ok answer alerts its error or the fallback; an exception, or a missing list object, alerts the network message |
| Dashboard.LoadList | nowNoise/src/screens/LandingPage.js:172-291 | for a user without Spotify nothing happens; otherwise only that list changes (on success), an alert is raised iff the list did not load, and the music loading flag ends false |
| Dashboard.LoadProfile | nowNoise/src/screens/LandingPage.js:141-169 | for a user without Spotify nothing happens; otherwise the profile is replaced on an ok answer, kept otherwise, and its loading flag ends false; the lists never change |
| Dashboard.Cleared | nowNoise/src/screens/LandingPage.js:113-118 | after a disconnect there is no profile data and all four lists are empty; the loading flags are kept |
| Dashboard.DisconnectedUser | nowNoise/src/screens/LandingPage.js:119-126 | the handed-on user is the same account with Spotify disconnected and no display name or image |
| Dashboard.DisconnectedLoadersIdle | nowNoise/src/screens/LandingPage.js:142-263 | for the disconnected user record every loader leaves the page as it is and raises nothing |
| Dashboard.DisconnectIdempotent | nowNoise/src/screens/LandingPage.js:113-126 | disconnecting twice has the same effect as once, on the page and on the user record |
| Dashboard.LoadListIdempotent | nowNoise/src/screens/LandingPage.js:172-199 | loading a list twice with the same answer is loading it once |
| Dashboard.LoadListsCommute | nowNoise/src/screens/LandingPage.js:172-291 | loaders of different lists can finish in either order with the same page state |
| Dashboard.LandingPage.constructor | nowNoise/src/screens/LandingPage.js:18-31 | the page starts with no profile data, four empty lists and both loading flags false |
| Dashboard.LandingPage.LoadSpotifyData | nowNoise/src/screens/LandingPage.js:141-169 | the page state becomes `LoadProfile` of the old state |
| Dashboard.LandingPage.LoadMusic | nowNoise/src/screens/LandingPage.js:172-291 | the page state and the alert are those of `LoadList` on the old state |
| Dashboard.LandingPage.HandleSpotifyDisconnect | nowNoise/src/screens/LandingPage.js:89-139 | a cancel changes nothing; an ok answer clears the page, alerts success and hands on the disconnected user when the parent listens; a failure or an exception only alerts |
| Text.TrimIdempotent | nowNoise/src/screens/SignupScreen.js:257-304 | trimming twice is trimming once |
| Text.AsciiLower | backend/app.py:60 | lower-casing keeps the length, maps every ASCII upper-case letter to its lower case, leaves every other character and leaves no ASCII upper-case letter |
| Text.JsTrim | nowNoise/src/screens/SignupScreen.js:304 | `trim()` yields a contiguous piece of the string such that everything before and after it is JavaScript white space, and the piece neither starts nor ends with white space |
| Text.PyStrip | backend/app.py:59 | `strip()` yields a contiguous piece of the string such that everything before and after it is Python white space, and the piece neither starts nor ends with white space |
| Text.AsciiLowerIdempotent | backend/app.py:60 | lower-casing twice is lower-casing once |

## Left out

- Animations are left out: timing, spring physics, opacity, scale, blob morphing and SVG paths.
  A commit animation is a single step at which it settles.
- Delays are left out: the 300 ms refill delay, the 500 ms delay before continuing, and the 1.5 s
  demo delay. Only the order of their effects is kept; the refill's captured `songs` is an explicit
  parameter of `HandleSwipe`.
- The tutorial card's playback timer is left out: `setInterval`, `+0.1` steps and `toFixed`.
- The demo slide's pan and rotate values are left out. They are never attached to a rendered card.
- Drag, width and rotation are exact real numbers. Floating-point rounding is not modelled.
- Case mapping and white space:
  - Lower-casing is ASCII only. JavaScript's `toLowerCase` and Python's `lower` also map non-ASCII
    letters; that mapping is left out.
  - Strings are sequences of characters, not UTF-16 code units.
  - JavaScript's `trim` and Python's `strip` white-space sets are written out as character lists.
- The network, `fetch`, JSON parsing and `Alert` are left out. Each call's outcome is an input;
  an exception while reading the body counts as a failed request.
- `ImagePicker` and permissions are left out; their outcomes are inputs. The unused
  `requestPermissions` only logs.
- The welcome screen (`GenStartScreen.js`) is not part of this model: it holds only navigation
  callbacks.
- The login screen is not part of this model.
  - `AuthScreen.js` never passes `handleLoginSuccess` to it (lines 78-83), so
    `AuthFlow.Router.HandleLoginSuccess` models a handler that nothing calls.
- `AuthScreen.js` passes an `onBack` prop to the wizard, which the wizard never reads.
- The stray top-level effect in `nowNoise/src/screens/SignupScreen.js:34-48` is left out. It is
  outside any component and refers to names that do not exist there.
- Under this wiring the profile step's retry error never appears.
  - `MultiStepSignup.Wizard.HandleFinalSignup` catches every failure.
  - So the completion callback passed to the profile step never fails.
  - `ProfilePicture.PictureScreen.HandleComplete` and `Skip` still model the failure path the
    screen has.
- The two email checks differ. The form accepts addresses such as "a@b.c" that `validate_email`
  rejects. Both checks are modelled as written; the mismatch only surfaces as the backend's 400.
- Backend parts left out:
  - password hashing is a record of what it was made from, satisfying only `check(hash(p), q)`
    iff `p == q`;
  - `created_at`;
  - the 500 answers on exceptions, and the database rollback;
  - column length limits;
  - JSON values that are not strings;
  - concurrent requests;
  - the users, health and debug endpoints;
  - logging.
- Spotify on the dashboard:
  - The signup and login answers carry no Spotify fields (`backend/app.py:107-115`, `171-179`).
    So under this app's wiring `user.spotify_connected` is undefined and every loader returns at
    its guard. The model takes the connection flag as part of `Dashboard.User`, so that both
    branches are covered.
  - `AuthScreen.js` passes no `onUserUpdate` to the landing page. So the disconnected user record
    is never handed on; `notifyParent` is that choice.
- Concurrency on the dashboard is left out. The four list loaders run concurrently and share
  `isLoadingMusic`; each loader is modelled as one atomic step.
- Dashboard parts left out:
  - connecting Spotify (`handleSpotifyConnect`) and deep links;
  - tabs, modals and the time-range selector;
  - `formatFollowers`, which formats floats with `toFixed(1)`;
  - date formatting.
- Dashboard.FormatDuration: covers non-negative whole milliseconds only. Negative or fractional
  durations, where JavaScript's `Math.floor` and `%` differ from Dafny's division, are not modelled.
- Tutorial.RenderCards: does not model the card's `top` offset or its scale and opacity, which are
  styling.

## Findings

| source | as written | input that shows it | evidently intended | confidence | as-written member | corrected member |
|---|---|---|---|---|---|---|
| backend/app.py:150-158 | signup accepts any username of 3 or more characters, including one that passes `validate_email`; login then looks such a field up only in the email column | sign up with username "ab@cd.ef", email "x@y.zz", password "secret"; logging in with "ab@cd.ef" / "secret" answers 401 | login accepts either a username or an email (the comment at line 133 says so), so every account should be able to log in by its own username | not executed | Accounts.EmailShapedUsernameCannotLogIn | Accounts.SignupThenLoginByUsernameIntended |
